// Event flag groups each used in one way: when all waits on a group are for flags to be set, or
// all for flags to be clear, no call ever leaves a waiter behind whose condition is met (os_flag.c).

module FlagRuns {
  import opened Tasks
  import opened FlagBits
  import opened KernelState
  import opened KernelSteps
  import opened ObjectSpec
  import opened ObjectInv
  import opened ObjectSteps
  import opened ObjectRuns
  import opened TaskChanges
  import KernelRuns
  import TickRuns
  import Ticks
  import Wheel = TickWheelSpec

  // All waits on a group in ups are for set flags, and on any other group for clear ones.
  ghost predicate OneWay(k: K, ups: set<Oid>) {
    forall t, o :: t in k.tasks && k.tasks[t].pendOn == OnFlag && o in Objects(k.tasks[t].table) ==>
      (SetMode(k.tasks[t].flagsMode) <==> o in ups)
  }

  predicate AsksOneWay(op: Op, ups: set<Oid>) {
    match op
    case OpFlagPend(o, _, mode, _, _, _) => SetMode(mode) <==> o in ups
    case OpFlagFinish(o, mode, _) => SetMode(mode) <==> o in ups
    case _ => true
  }

  // The calls that break something other than a flag wait by consuming.
  predicate Faulty(s: Sys, op: Op) {
    !op.OpFlagPend? && !op.OpFlagFinish? && Broken(s, op)
  }

  lemma OneWayStays(k: K, k': K, ups: set<Oid>)
    requires OneWay(k, ups) && NoNewFlagWait(k, k')
    ensures OneWay(k', ups)
  {
  }

  // ---------------------------------------------------------------- nobody is overlooked

  lemma NobodyOverlooked(s: Sys, o: Oid, mode: FlagMode, bits: bv32, ups: set<Oid>)
    requires SysInv(s) && IsFlags(s, o) && OneWay(s.k, ups) && (SetMode(mode) <==> o in ups)
    ensures !Overlooked(s.k, s.k.pend[o], mode, bits)
  {
    hide SysInv, Satisfied, Inv, TcbOk;
    FlagListed(s, o);
    SysParts(s);
    assert forall t :: t in s.k.pend[o] ==> Waits(s.k.tasks, t, o);
  }

  lemma NothingMissed(s: Sys, op: Op, ups: set<Oid>)
    requires SysInv(s) && OneWay(s.k, ups) && Allowed(s, op) && AsksOneWay(op, ups) && !Faulty(s, op)
    ensures !Broken(s, op)
  {
    hide SysInv, OneWay, Overlooked, Consumed, RdyBits, Satisfied;
    match op
    case OpFlagPend(o, flags, mode, _, _, _) =>
      var bits := s.objs[o].bits;
      NobodyOverlooked(s, o, mode, Consumed(bits, RdyBits(bits, flags, mode), mode), ups);
    case OpFlagFinish(o, mode, _) =>
      NobodyOverlooked(s, o, mode, Consumed(s.objs[o].bits, s.k.tasks[s.k.cur].flagsRdy, mode), ups);
    case _ =>
  }

  // ---------------------------------------------------------------- every step keeps it so

  lemma ReprioFlags(k: K, t: Tid, prio: Prio, place: Place, resort: bool)
    requires t in k.tasks
    ensures NoNewFlagWait(k, Reprio(k, t, prio, place, resort))
  {
    hide Enlist, Unpend, RdyPut, RdyRemove;
  }

  lemma FlagPendOneWay(s: Sys, o: Oid, flags: bv32, mode: FlagMode, consume: bool, block: bool, timeout: Ticks.Tick,
      ups: set<Oid>)
    requires IsFlags(s, o) && s.k.cur in s.k.tasks && OneWay(s.k, ups) && (SetMode(mode) <==> o in ups)
    requires s.k.tasks[s.k.cur].pendOn != OnFlag
    ensures OneWay(FlagPend(s, o, flags, mode, consume, block, timeout).k, ups)
  {
    hide Enlist, RdyRemove, Wheel.Insert, FreshTable, RdyBits, Satisfied, Consumed;
    TableOfOne(o);
  }

  lemma TableOfOne(o: Oid)
    ensures Objects(FreshTable([o])) == {o}
  {
    assert FreshTable([o])[0].obj == o;
  }

  lemma MutexFlags(s: Sys, op: Op)
    requires Allowed(s, op) && (op.OpMutexPend? || op.OpMutexPost? || op.OpMutexDel?)
    ensures NoNewFlagWait(s.k, Step(s, op).k)
  {
    hide Reprio, Pend, Post, CancelAll, Quietly, NoNewFlagWait;
    var k, m := s.k, s.objs[op.o];
    SameFlags(k);
    if op.OpMutexPend? {
      if m.owner.Task? && m.owner.t in k.tasks { ReprioFlags(k, m.owner.t, k.tasks[k.cur].prio, AtHead, true); }
      var k1 := Boost(k, m.owner, k.tasks[k.cur].prio);
      QuietPend(k1, OnMutex, [op.o], op.timeout);
      FlagsTrans(k, k1, Pend(k1, OnMutex, [op.o], op.timeout));
    } else if op.OpMutexPost? {
      MutexPostFlags(s, op.o);
    } else {
      MutexDelFlags(s, op.o, op.always);
    }
  }

  lemma MutexPostFlags(s: Sys, o: Oid)
    requires IsMutex(s, o) && s.k.cur in s.k.tasks
    ensures NoNewFlagWait(s.k, MutexPost(s, o).k)
  {
    hide Reprio, Post, Quietly, NoNewFlagWait;
    var k, m := s.k, s.objs[o];
    SameFlags(k);
    ReprioFlags(k, k.cur, m.orig, AtTail, true);
    ReprioKeys(k, k.cur, m.orig, AtTail);
    var k1 := Unboost(k, m.orig);
    SameTaskFlags(Reprio(k, k.cur, m.orig, AtTail, true), k1);
    if k.pend[o] != [] && k.pend[o][0] in k.tasks {
      QuietPost(k1, k.pend[o][0], o, NULL_MSG);
      if k1 != k { FlagsTrans(k, Reprio(k, k.cur, m.orig, AtTail, true), k1); }
      FlagsTrans(k, k1, Post(k1, k.pend[o][0], o, NULL_MSG));
    }
  }

  lemma MutexDelFlags(s: Sys, o: Oid, always: bool)
    requires IsMutex(s, o)
    ensures NoNewFlagWait(s.k, MutexDel(s, o, always).k)
  {
    hide Reprio, CancelAll, Quietly, NoNewFlagWait;
    var k, m := s.k, s.objs[o];
    SameFlags(k);
    QuietCancelAll(k, k.pend[o], o, PendDel);
    FlagsTrans(k, k, CancelAll(k, k.pend[o], o, PendDel));
    if m.owner.Task? && m.owner.t in k.tasks {
      ReprioFlags(k, m.owner.t, m.orig, AtTail, true);
      ReprioKeys(k, m.owner.t, m.orig, AtTail);
      var k1 := Reprio(k, m.owner.t, m.orig, AtTail, true);
      QuietCancelAll(k1, k1.pend[o], o, PendDel);
      FlagsTrans(k, k1, CancelAll(k1, k1.pend[o], o, PendDel));
    }
  }

  lemma SameFlags(k: K)
    ensures NoNewFlagWait(k, k)
  {
  }

  lemma SameTaskFlags(k: K, k': K)
    ensures k.tasks == k'.tasks ==> NoNewFlagWait(k, k')
  {
  }

  lemma FlagsTrans(k: K, k1: K, k2: K)
    requires NoNewFlagWait(k, k1) && (Quietly(k1, k2) || NoNewFlagWait(k1, k2))
    ensures NoNewFlagWait(k, k2)
  {
  }

  lemma KernelFlags(k: K, op: KernelRuns.Op)
    requires Inv(k) && KernelRuns.Allowed(k, op) && Quiet(op)
    ensures NoNewFlagWait(k, KernelRuns.Step(k, op))
  {
    hide Inv, Quietly, NoNewFlagWait, Post, Cancel, FlagRdy, Pend, Suspend, Resume, DlyResume, TimeDly, Reprio,
         KernelRuns.Tick, KernelRuns.Sched, PendArgs;
    match op
    case OpPend(on, objs, timeout) => QuietPend(k, on, objs, timeout); QuietFlags(k, Pend(k, on, objs, timeout));
    case OpPost(t, o, msg) => QuietPost(k, t, o, msg); QuietFlags(k, Post(k, t, o, msg));
    case OpCancel(t, o, status) => QuietCancel(k, t, o, status); QuietFlags(k, Cancel(k, t, o, status));
    case OpFlagRdy(t, rdy) => QuietFlagRdy(k, t, rdy); QuietFlags(k, FlagRdy(k, t, rdy));
    case OpChangePrio(t, prio, self) =>
      SameFlags(k);
      if prio < PRIO_MAX { ReprioFlags(k, t, prio, if self then AtHead else AtTail, k.tasks[t].pendOn != OnFlag); }
    case OpTick => TickFlags(k);
    case OpDly(time, opt) => OwnFlags(k, op);
    case OpDlyResume(t) => OwnFlags(k, op);
    case OpSuspend(t) => OwnFlags(k, op);
    case OpResume(t) => OwnFlags(k, op);
    case _ => RestFlags(k, op);
  }

  // The four calls that change the state bits of one task.
  lemma OwnFlags(k: K, op: KernelRuns.Op)
    requires KernelRuns.Allowed(k, op) && (op.OpDly? || op.OpDlyResume? || op.OpSuspend? || op.OpResume?)
    ensures NoNewFlagWait(k, KernelRuns.Step(k, op))
  {
    var t := if op.OpDly? then k.cur else op.t;
    if op.OpDly? || op.OpDlyResume? { DelayOne(k, op); } else { SuspendOne(k, op); }
    hide *;
    OneTaskFlags(k, KernelRuns.Step(k, op), t);
  }

  lemma DelayOne(k: K, op: KernelRuns.Op)
    requires KernelRuns.Allowed(k, op) && (op.OpDly? || op.OpDlyResume?)
    ensures var t := if op.OpDly? then k.cur else op.t; t in k.tasks && OnlyState(k, KernelRuns.Step(k, op), t)
  {
    hide RdyInsert, RdyRemove, Unpend, Wheel.Remove, Wheel.Insert, TickRuns.PlanOf;
  }

  lemma SuspendOne(k: K, op: KernelRuns.Op)
    requires KernelRuns.Allowed(k, op) && (op.OpSuspend? || op.OpResume?)
    ensures op.t in k.tasks && OnlyState(k, KernelRuns.Step(k, op), op.t)
  {
    hide RdyInsert, RdyRemove, Unpend, Wheel.Remove;
  }

  ghost predicate OnlyState(k: K, k': K, t: Tid)
    requires t in k.tasks
  {
    && k'.tasks.Keys == k.tasks.Keys && (forall x :: x in k.tasks && x != t ==> k'.tasks[x] == k.tasks[x])
    && k'.tasks[t].pendOn == k.tasks[t].pendOn && k'.tasks[t].flagsMode == k.tasks[t].flagsMode
    && k'.tasks[t].table == k.tasks[t].table
  }

  lemma OneTaskFlags(k: K, k': K, t: Tid)
    requires t in k.tasks && OnlyState(k, k', t)
    ensures NoNewFlagWait(k, k')
  {
  }

  lemma RestFlags(k: K, op: KernelRuns.Op)
    requires KernelRuns.Allowed(k, op) && (op.OpRotate? || op.OpLock? || op.OpUnlock? || op.OpSched?)
    ensures NoNewFlagWait(k, KernelRuns.Step(k, op))
  {
    hide KernelRuns.Highest;
  }

  lemma TickFlags(k: K)
    requires Inv(k)
    ensures NoNewFlagWait(k, KernelRuns.Tick(k))
  {
    hide Inv, KernelRuns.Tick;
    KernelRuns.TickKeeps(k);
  }

  lemma TaskFlags(s: Sys, op: Op)
    requires Allowed(s, op) && (op.OpCreateTask? || op.OpDeleteTask?)
    ensures NoNewFlagWait(s.k, Step(s, op).k)
  {
    hide RdyRemove, Unpend, Wheel.Remove;
  }

  lemma StepOneWay(s: Sys, op: Op, ups: set<Oid>)
    requires SysInv(s) && OneWay(s.k, ups) && Allowed(s, op) && AsksOneWay(op, ups)
    ensures OneWay(Step(s, op).k, ups)
  {
    hide SysInv, OneWay, NoNewFlagWait, Quietly, KernelRuns.Step, KernelRuns.Allowed, Quiet, MutexPend, MutexPost,
         MutexDel, FlagPend, CreateTask, DeleteTask;
    var k' := Step(s, op).k;
    SystemParts(s);
    if Plain(op) {
      PlainQuiet(s, op);
      QuietFlags(s.k, k');
      OneWayStays(s.k, k', ups);
    } else if op.OpFlagPend? {
      FlagPendOneWay(s, op.o, op.flags, op.mode, op.consume, op.block, op.timeout, ups);
    } else if op.OpKernel? {
      KernelFlags(s.k, op.op);
      OneWayStays(s.k, k', ups);
    } else {
      if op.OpCreateTask? || op.OpDeleteTask? { TaskFlags(s, op); } else { MutexFlags(s, op); }
      OneWayStays(s.k, k', ups);
    }
  }

  lemma SystemParts(s: Sys)
    requires SysInv(s)
    ensures Inv(s.k) && (s.k.cur in s.k.tasks && s.k.tasks[s.k.cur].st == RDY ==> s.k.tasks[s.k.cur].pendOn != OnFlag)
  {
    assert s.k.cur in s.k.tasks ==> TcbOk(s.k.tasks[s.k.cur]);
  }

  lemma QuietFlags(k: K, k': K)
    requires Quietly(k, k')
    ensures NoNewFlagWait(k, k')
  {
  }

  // ---------------------------------------------------------------- whole runs

  ghost predicate OneWayLegal(s: Sys, ops: seq<Op>, ups: set<Oid>)
    decreases |ops|
  {
    ops == [] || (Allowed(s, ops[0]) && AsksOneWay(ops[0], ups) && !Faulty(s, ops[0])
      && OneWayLegal(Step(s, ops[0]), ops[1..], ups))
  }

  // In every run in which each group is waited on in one way only, consuming or not, no waiter is
  // ever left with its condition met, and the rest of the system invariant holds too.
  lemma {:induction false} NoWaiterMissed(s: Sys, ops: seq<Op>, ups: set<Oid>)
    requires SysInv(s) && OneWay(s.k, ups) && OneWayLegal(s, ops, ups)
    ensures Legal(s, ops) && SysInv(Run(s, ops)) && OneWay(Run(s, ops).k, ups)
    decreases |ops|
  {
    hide SysInv, OneWay, Allowed, AsksOneWay, Faulty, Broken, Step;
    if ops != [] {
      NothingMissed(s, ops[0], ups);
      StepKeeps(s, ops[0]);
      StepOneWay(s, ops[0], ups);
      NoWaiterMissed(Step(s, ops[0]), ops[1..], ups);
    }
  }

  lemma InitialOneWay(spokes: nat, ups: set<Oid>)
    requires spokes > 0
    ensures SysInv(Initial(spokes)) && OneWay(Initial(spokes).k, ups)
  {
    InitialKeeps(spokes);
  }
}
