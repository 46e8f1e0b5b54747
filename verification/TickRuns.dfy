// Whole runs of the tick wheel: any mixture of insertions, removals and ticks, of any
// length, across any number of wrap-arounds of the 32-bit counter.

module TickRuns {
  import opened Ticks
  import opened Lists
  import opened TickWheelSpec

  datatype Op<T> = Put(t: T, r: Tick) | Drop(t: T) | Advance

  // The callers of OS_TickListInsert never pass a task that is already on the wheel.
  ghost predicate Enabled<T>(w: Wheel<T>, op: Op<T>) {
    op.Put? ==> op.t !in w.due && 0 < op.r
  }

  ghost function Step<T>(w: Wheel<T>, op: Op<T>): Wheel<T>
    requires |w.spokes| > 0
  {
    match op
    case Put(t, r) => Insert(w, t, Plus(w.ctr, r))
    case Drop(t) => Remove(w, t)
    case Advance => Update(w).0
  }

  ghost predicate Legal<T>(w: Wheel<T>, ops: seq<Op<T>>)
    requires |w.spokes| > 0
    decreases |ops|
  {
    ops == [] || (Enabled(w, ops[0]) && Legal(Step(w, ops[0]), ops[1..]))
  }

  ghost function Run<T>(w: Wheel<T>, ops: seq<Op<T>>): Wheel<T>
    requires |w.spokes| > 0
    decreases |ops|
  {
    if ops == [] then w else Run(Step(w, ops[0]), ops[1..])
  }

  // The tasks released at each tick of the run, in order of the ticks.
  ghost function Releases<T>(w: Wheel<T>, ops: seq<Op<T>>): seq<set<T>>
    requires |w.spokes| > 0
    decreases |ops|
  {
    if ops == [] then []
    else (if ops[0].Advance? then [Elements(Update(w).1)] else []) + Releases(Step(w, ops[0]), ops[1..])
  }

  // The same three, on the plain table of remaining ticks.
  ghost function TableStep<T>(s: map<T, nat>, op: Op<T>): map<T, nat> {
    match op
    case Put(t, r) => s[t := r]
    case Drop(t) => s - {t}
    case Advance => ScanAll(s)
  }

  ghost function TableRun<T>(s: map<T, nat>, ops: seq<Op<T>>): map<T, nat>
    decreases |ops|
  {
    if ops == [] then s else TableRun(TableStep(s, ops[0]), ops[1..])
  }

  ghost function TableReleases<T>(s: map<T, nat>, ops: seq<Op<T>>): seq<set<T>>
    decreases |ops|
  {
    if ops == [] then []
    else (if ops[0].Advance? then [Due(s)] else []) + TableReleases(TableStep(s, ops[0]), ops[1..])
  }

  lemma StepRefines<T>(w: Wheel<T>, op: Op<T>)
    requires Valid(w) && Enabled(w, op)
    ensures Valid(Step(w, op)) && Sleepers(Step(w, op)) == TableStep(Sleepers(w), op)
    ensures op.Advance? ==> Elements(Update(w).1) == Due(Sleepers(w))
  {
    match op
    case Put(t, r) => InsertRefines(w, t, Plus(w.ctr, r));
    case Drop(t) => RemoveRefines(w, t);
    case Advance => UpdateRefines(w);
  }

  // The wheel, for every number of spokes, is indistinguishable from the plain table.
  lemma {:induction false} WheelRefinesTable<T>(w: Wheel<T>, ops: seq<Op<T>>)
    requires Valid(w) && Legal(w, ops)
    ensures Valid(Run(w, ops))
    ensures Sleepers(Run(w, ops)) == TableRun(Sleepers(w), ops)
    ensures Releases(w, ops) == TableReleases(Sleepers(w), ops)
    decreases |ops|
  {
    if ops != [] {
      StepRefines(w, ops[0]);
      WheelRefinesTable(Step(w, ops[0]), ops[1..]);
    }
  }

  function TicksIn<T>(ops: seq<Op<T>>): nat {
    if ops == [] then 0 else (if ops[0].Advance? then 1 else 0) + TicksIn(ops[1..])
  }

  ghost predicate Untouched<T>(t: T, ops: seq<Op<T>>) {
    forall i :: 0 <= i < |ops| && !ops[i].Advance? ==> ops[i].t != t
  }

  lemma {:induction false} TableStaysAwake<T>(s: map<T, nat>, t: T, ops: seq<Op<T>>)
    requires t !in s && Untouched(t, ops)
    ensures |TableReleases(s, ops)| == TicksIn(ops)
    ensures t !in TableRun(s, ops)
    ensures forall j :: 0 <= j < TicksIn(ops) ==> t !in TableReleases(s, ops)[j]
    decreases |ops|
  {
    if ops != [] {
      TableStaysAwake(TableStep(s, ops[0]), t, ops[1..]);
    }
  }

  lemma {:induction false} TableWakesExactly<T>(s: map<T, nat>, t: T, ops: seq<Op<T>>)
    requires t in s && 0 < s[t] && Untouched(t, ops)
    ensures |TableReleases(s, ops)| == TicksIn(ops)
    ensures t in TableRun(s, ops) <==> TicksIn(ops) < s[t]
    ensures t in TableRun(s, ops) ==> TableRun(s, ops)[t] == s[t] - TicksIn(ops)
    ensures forall j :: 0 <= j < TicksIn(ops) ==> (t in TableReleases(s, ops)[j] <==> j == s[t] - 1)
    decreases |ops|
  {
    if ops != [] {
      var s' := TableStep(s, ops[0]);
      if t in s' {
        TableWakesExactly(s', t, ops[1..]);
      } else {
        TableStaysAwake(s', t, ops[1..]);
      }
    }
  }

  // A task inserted to sleep r ticks, and left alone, sleeps through the first r - 1 ticks,
  // is released by the r-th and by no other, whatever happens to the other tasks.
  lemma WakesExactly<T>(w: Wheel<T>, t: T, r: Tick, ops: seq<Op<T>>)
    requires Valid(w) && t !in w.due && 0 < r
    requires Legal(Insert(w, t, Plus(w.ctr, r)), ops) && Untouched(t, ops)
    ensures var w0 := Insert(w, t, Plus(w.ctr, r));
      && |Releases(w0, ops)| == TicksIn(ops)
      && (t in Run(w0, ops).due <==> TicksIn(ops) < r)
      && (forall j :: 0 <= j < TicksIn(ops) ==> (t in Releases(w0, ops)[j] <==> j == r - 1))
  {
    var w0 := Insert(w, t, Plus(w.ctr, r));
    InsertRefines(w, t, Plus(w.ctr, r));
    WheelRefinesTable(w0, ops);
    TableWakesExactly(Sleepers(w0), t, ops);
  }

  // ---------------------------------------------------------------- when to wake up

  datatype TimeOpt = Dly | Timeout | Match | Periodic

  // What OS_TickListInsert makes of its arguments: the match value and the new
  // TickCtrPrev, or OS_ERR_TIME_ZERO_DLY.
  datatype Plan = ZeroDly | Wake(due: Tick, prev: Tick)

  const OS_TICK_TH_RDY: Tick := 0xFFFF_0000

  function PlanOf(c: Tick, prev: Tick, time: Tick, opt: TimeOpt): (p: Plan)
  {
    if opt == Match then
      if Minus(Minus(time, c), 1) > OS_TICK_TH_RDY then ZeroDly else Wake(time, prev)
    else if time > 0 then
      if opt == Periodic then
        var next := Plus(prev, time);
        var due := if Minus(Minus(next, c), 1) < time then next else Plus(c, time);
        Wake(due, due)
      else Wake(Plus(c, time), prev)
    else ZeroDly
  }

  // Every accepted plan lies ahead of the counter, and by how much; what is refused.
  lemma PlanMeaning(c: Tick, prev: Tick, time: Tick, opt: TimeOpt)
    ensures var p := PlanOf(c, prev, time, opt);
      match p
      case Wake(due, prev') =>
        && due != c
        && 1 <= Minus(due, c) <= (if opt == Match then OS_TICK_TH_RDY + 1 else time)
        && (opt == Match ==> due == time)
        && (opt == Dly || opt == Timeout ==> Minus(due, c) == time)
        && prev' == (if opt == Periodic then due else prev)
      case ZeroDly =>
        if opt == Match then Minus(c, time) < 0xFFFF else time == 0
  {
  }

  // A periodic delay keeps its phase exactly when the caller is less than one period late.
  lemma PeriodicPhase(c: Tick, prev: Tick, time: Tick)
    requires 0 < time
    ensures PlanOf(c, prev, time, Periodic).due == Plus(prev, time) <==> Minus(c, prev) < time
    ensures Minus(c, prev) >= time ==> PlanOf(c, prev, time, Periodic).due == Plus(c, time)
  {
  }

  // The tick counter after n ticks in all.
  function At(n: nat): Tick {
    n % MODULUS
  }

  // The instants, in ticks since start-up, at which a task wakes when its i-th periodic
  // call comes late[i] ticks after the wake-up before it.
  function Wakeups(now: nat, prev: Tick, time: Tick, late: seq<nat>): seq<nat>
    requires 0 < time
    decreases |late|
  {
    if late == [] then []
    else
      var call := now + late[0];
      var p := PlanOf(At(call), prev, time, Periodic);
      var wake := call + Minus(p.due, At(call));
      [wake] + Wakeups(wake, p.prev, time, late[1..])
  }

  lemma AtPlus(n: nat, d: nat)
    requires d < MODULUS
    ensures At(n + d) == Plus(At(n), d)
    ensures Minus(At(n + d), At(n)) == d
  {
  }

  lemma KeepsPhase(start: nat, time: Tick, late: nat)
    requires late < time
    ensures var p := PlanOf(At(start + late), At(start), time, Periodic);
      start + late + Minus(p.due, At(start + late)) == start + time && p.prev == At(start + time)
  {
    AtPlus(start, late);
    AtPlus(start, time);
    AtPlus(start + late, time - late);
    PeriodicPhase(At(start + late), At(start), time);
  }

  // The k-th wake-up of an ideal clock.
  function OnTime(start: nat, time: nat, k: nat): nat {
    start + k * time
  }

  lemma OnTimeNext(start: nat, time: nat, k: nat)
    ensures OnTime(start + time, time, k) == OnTime(start, time, k + 1) && OnTime(start, time, 1) == start + time
  {
  }

  // A task that is never a whole period late wakes at start + k * time, without drift,
  // across any number of counter wraps.
  lemma {:induction false} NoDrift(start: nat, time: Tick, late: seq<nat>)
    requires 0 < time && forall i :: 0 <= i < |late| ==> late[i] < time
    ensures var ws := Wakeups(start, At(start), time, late);
      |ws| == |late| && forall k :: 0 <= k < |ws| ==> ws[k] == OnTime(start, time, k + 1)
    decreases |late|
  {
    hide OnTime, PlanOf;
    if late != [] {
      KeepsPhase(start, time, late[0]);
      NoDrift(start + time, time, late[1..]);
      var ws := Wakeups(start, At(start), time, late);
      var rest := Wakeups(start + time, At(start + time), time, late[1..]);
      assert ws == [start + time] + rest;
      forall k | 0 <= k < |ws|
        ensures ws[k] == OnTime(start, time, k + 1)
      {
        OnTimeNext(start, time, k);
        if k > 0 { assert rest[k-1] == OnTime(start + time, time, k - 1 + 1); }
      }
    }
  }
}
