// Every service of the objects keeps the invariant of ObjectInv.

module ObjectSteps {
  import opened Ticks
  import opened Lists
  import opened Tasks
  import opened FlagBits
  import opened KernelState
  import opened KernelSteps
  import opened KernelReleases
  import opened ObjectSpec
  import opened ObjectInv
  import Wheel = TickWheelSpec

  // ---------------------------------------------------------------- one object changes

  // The same tasks and lists, other contents of one object.
  lemma NewContents(s: Sys, o: Oid, b: Obj)
    requires SysInv(s) && o in s.objs && ObjOk(s.k, o, b)
    ensures SysInv(s.(objs := s.objs[o := b]))
  {
    hide Inv, ObjOk, InboxOk;
  }

  lemma NewKernel(s: Sys, k': K, o: Oid, b: Obj)
    requires SysInv(s) && Inv(k') && Shrinks(s.k, k') && o in s.objs && ObjOk(k', o, b)
    ensures SysInv(s.(k := k', objs := s.objs[o := b]))
  {
    hide Inv, ObjOk, InboxOk, Shrinks;
    ShrunkSys(s, k');
    NewContents(s.(k := k'), o, b);
  }

  // ---------------------------------------------------------------- semaphores

  ghost predicate Caller(s: Sys, block: bool) {
    s.k.cur in s.k.tasks && (block && s.k.schedLock == 0 ==> Runs(s.k))
  }

  lemma SemPendKeeps(s: Sys, o: Oid, block: bool, timeout: Tick)
    requires SysInv(s) && IsSem(s, o) && Caller(s, block)
    ensures SysInv(SemPend(s, o, block, timeout))
  {
    hide SysInv, Pend, Inv;
    SysObject(s, o);
    if s.objs[o].ctr > 0 {
      NewContents(s, o, Sem(s.objs[o].ctr - 1));
    } else if CanBlock(s.k, block) {
      PendSys(s, OnSem, [o], timeout);
    }
  }

  lemma SemPostKeeps(s: Sys, o: Oid, all: bool)
    requires SysInv(s) && IsSem(s, o)
    ensures SysInv(SemPost(s, o, all))
  {
    hide SysInv, Inv, PostAll, Shrinks, Released;
    SysObject(s, o);
    SysParts(s);
    if s.k.pend[o] != [] {
      PostAllExact(s.k, o, all, NULL_MSG);
      ShrunkSys(s, SemPost(s, o, all).k);
    } else if s.objs[o].ctr < CTR_MAX {
      NewContents(s, o, Sem(s.objs[o].ctr + 1));
    }
  }

  lemma SemSetKeeps(s: Sys, o: Oid, cnt: Tick)
    requires SysInv(s) && IsSem(s, o)
    ensures SysInv(SemSet(s, o, cnt))
  {
    hide SysInv, Inv;
    SysObject(s, o);
    if s.objs[o].ctr > 0 || s.k.pend[o] == [] {
      NewContents(s, o, Sem(cnt));
    }
  }

  // ---------------------------------------------------------------- message queues

  lemma QPendKeeps(s: Sys, o: Oid, block: bool, timeout: Tick)
    requires SysInv(s) && IsQueue(s, o) && Caller(s, block)
    ensures SysInv(QPend(s, o, block, timeout))
  {
    hide SysInv, Inv, Pend;
    SysObject(s, o);
    if s.objs[o].msgs != [] {
      NewContents(s, o, s.objs[o].(msgs := s.objs[o].msgs[1..]));
    } else if CanBlock(s.k, block) {
      PendSys(s, OnQ, [o], timeout);
    }
  }

  lemma QPostKeeps(s: Sys, o: Oid, msg: Msg, lifo: bool, all: bool, poolEmpty: bool)
    requires SysInv(s) && IsQueue(s, o)
    ensures SysInv(QPost(s, o, msg, lifo, all, poolEmpty))
  {
    hide SysInv, Inv, PostAll, Shrinks, Released;
    SysObject(s, o);
    SysParts(s);
    var q := s.objs[o];
    if s.k.pend[o] != [] {
      PostAllExact(s.k, o, all, msg);
      ShrunkSys(s, QPost(s, o, msg, lifo, all, poolEmpty).k);
    } else if !Refused(s, o, poolEmpty) {
      NewContents(s, o, q.(msgs := if lifo then [msg] + q.msgs else q.msgs + [msg]));
    }
  }

  lemma QFlushKeeps(s: Sys, o: Oid)
    requires SysInv(s) && IsQueue(s, o)
    ensures SysInv(QFlush(s, o))
  {
    hide SysInv, Inv;
    SysObject(s, o);
    NewContents(s, o, s.objs[o].(msgs := []));
  }

  // ---------------------------------------------------------------- several at once

  lemma TakeAllKeeps(s: Sys, l: seq<Oid>)
    requires SysInv(s)
    ensures SysInv(s.(objs := TakeAll(s.objs, l)))
  {
    hide Inv, InboxOk, NoneMissed;
    forall o | o in s.objs
      ensures ObjOk(s.k, o, TakeAll(s.objs, l)[o])
    {
      assert ObjOk(s.k, o, s.objs[o]);
    }
  }

  lemma MultiPendKeeps(s: Sys, l: seq<Oid>, block: bool, timeout: Tick)
    requires SysInv(s) && MultiValid(s, l) && Distinct(l) && Caller(s, block)
    ensures SysInv(MultiPend(s, l, block, timeout))
  {
    hide SysInv, Pend, TakeAll;
    if exists o :: o in l && HasOne(s.objs[o]) {
      TakeAllKeeps(s, l);
    } else if CanBlock(s.k, block) {
      PendSys(s, OnMulti, l, timeout);
    }
  }

  // ---------------------------------------------------------------- abort and delete

  lemma AbortKeeps(s: Sys, o: Oid, all: bool)
    requires SysInv(s) && o in s.k.pend
    ensures SysInv(PendAbortObj(s, o, all))
  {
    CancelAllExact(s.k, o, all, PendAbort);
    hide SysInv, Inv, CancelAll, Shrinks, Released;
    ShrunkSys(s, PendAbortObj(s, o, all).k);
  }

  lemma {:induction false} ExceptAll(l: seq<Tid>, gone: set<Tid>)
    requires forall x :: x in l ==> x in gone
    ensures Except(l, gone) == []
  {
    if l != [] {
      assert l[0] in gone;
      ExceptAll(l[1..], gone);
    }
  }

  lemma NobodyLeft(k: K, k': K, o: Oid, f: Tcb -> Tcb)
    requires o in k.pend && Released(k, k', Elements(k.pend[o]), f)
    ensures o in k'.pend && k'.pend[o] == []
  {
    ExceptAll(k.pend[o], Elements(k.pend[o]));
  }

  lemma DelKeeps(s: Sys, o: Oid, always: bool)
    requires SysInv(s) && o in s.k.pend
    ensures SysInv(DelObj(s, o, always))
  {
    if s.k.pend[o] == [] || always {
      var k' := CancelAll(s.k, s.k.pend[o], o, PendDel);
      assert Chosen(s.k.pend[o], true) == s.k.pend[o];
      assert Inv(s.k);
      hide SysInv, Inv, CancelAll, Shrinks, Released;
      CancelAllExact(s.k, o, true, PendDel);
      ShrunkSys(s, k');
      NobodyLeft(s.k, k', o, CancelledBy(o, PendDel));
      Forget(s.(k := k'), o);
    }
  }

  lemma Forget(s: Sys, o: Oid)
    requires SysInv(s) && o in s.k.pend && s.k.pend[o] == []
    ensures SysInv(s.(objs := s.objs - {o}))
  {
    hide Inv, ObjOk, InboxOk;
  }

  // ---------------------------------------------------------------- event flags

  function FlagFreed(bits: bv32): Tcb -> Tcb {
    (c: Tcb) => Freed(c.(flagsRdy := RdyBits(bits, c.flagsPend, c.flagsMode)), PendOk)
  }

  // The tasks of l whose condition the flags meet, in the order of l.
  function Hits(k: K, l: seq<Tid>, bits: bv32): (r: seq<Tid>)
    ensures forall t :: t in r <==> t in l && FlagHit(k, t, bits)
  {
    if l == [] then [] else if FlagHit(k, l[0], bits) then [l[0]] + Hits(k, l[1..], bits) else Hits(k, l[1..], bits)
  }

  // None of the waiters that will be woken is of the kind OS_FlagTaskRdy mishandles.
  predicate NoneMishandled(k: K, l: seq<Tid>, bits: bv32) {
    forall t :: t in l && FlagHit(k, t, bits) ==> k.tasks[t].st != PEND_TIMEOUT_SUSPENDED
  }

  lemma FlagRdyReleases(k: K, t: Tid, bits: bv32)
    requires Inv(k) && t in k.tasks && k.tasks[t].st.pend && k.tasks[t].st != PEND_TIMEOUT_SUSPENDED
    ensures var c := k.tasks[t];
      FlagRdy(k, t, RdyBits(bits, c.flagsPend, c.flagsMode)) == Release(k, t, FlagFreed(bits)(c))
  {
    var c := k.tasks[t];
    assert c.st == PEND_SUSPENDED ==> t !in k.wheel.due;
    assert c.st == PEND_SUSPENDED ==> Wheel.Remove(k.wheel, t) == k.wheel;
    hide Inv, Wheel.Remove, Unpend, RdyInsert, RdyBits;
  }

  lemma HitsDistinct(k: K, l: seq<Tid>, bits: bv32)
    requires Distinct(l)
    ensures Distinct(Hits(k, l, bits))
  {
    if l != [] {
      HitsDistinct(k, l[1..], bits);
    }
  }

  lemma {:induction false} HitsSame(k: K, k': K, l: seq<Tid>, bits: bv32)
    requires k'.tasks.Keys == k.tasks.Keys && forall t :: t in l && t in k.tasks ==> k'.tasks[t] == k.tasks[t]
    ensures Hits(k', l, bits) == Hits(k, l, bits)
  {
    if l != [] {
      assert l[0] in l;
      HitsSame(k, k', l[1..], bits);
    }
  }

  // The walk over the shrinking list releases exactly the satisfied waiters.
  lemma {:induction false} FlagWakeReleases(k: K, l: seq<Tid>, bits: bv32)
    requires Inv(k) && AllWait(k, l) && NoneMishandled(k, l, bits)
    ensures FlagWake(k, l, bits) == ReleaseAll(k, Hits(k, l, bits), FlagFreed(bits))
    decreases |l|
  {
    if l != [] {
      var t := l[0];
      assert l[0] in l;
      if FlagHit(k, t, bits) {
        var k1 := Release(k, t, FlagFreed(bits)(k.tasks[t]));
        FlagRdyReleases(k, t, bits);
        assert TcbOk(k.tasks[t]);
        ReleaseKeeps(k, t, FlagFreed(bits)(k.tasks[t]));
        WaitersStay(k, k1, t, l, bits);
        hide Inv, FlagRdy, Release, FlagFreed;
        FlagWakeReleases(k1, l[1..], bits);
        HitsSame(k, k1, l[1..], bits);
      } else {
        hide Inv;
        FlagWakeReleases(k, l[1..], bits);
      }
    }
  }

  lemma WaitersStay(k: K, k1: K, t: Tid, l: seq<Tid>, bits: bv32)
    requires AllWait(k, l) && l != [] && t == l[0] && NoneMishandled(k, l, bits)
    requires t in k1.tasks && k1.tasks == k.tasks[t := k1.tasks[t]]
    ensures AllWait(k1, l[1..]) && NoneMishandled(k1, l[1..], bits)
    ensures k1.tasks.Keys == k.tasks.Keys && forall x :: x in l[1..] ==> k1.tasks[x] == k.tasks[x]
  {
  }

  // OS_FlagPost readies exactly the waiters that the new flags satisfy, tells each which of
  // its flags were ready, leaves the others in their order, and leaves nobody behind whose
  // condition is met.
  lemma FlagPostExact(s: Sys, o: Oid, flags: bv32, set_: bool)
    requires SysInv(s) && IsFlags(s, o)
    requires var bits := FlagPost(s, o, flags, set_).objs[o].bits; NoneMishandled(s.k, s.k.pend[o], bits)
    ensures var s' := FlagPost(s, o, flags, set_); var bits := s'.objs[o].bits;
      && Released(s.k, s'.k, Elements(Hits(s.k, s.k.pend[o], bits)), FlagFreed(bits))
      && SysInv(s')
  {
    hide SysInv, Inv, FlagWake, Released, FlagPost, NoneMishandled, ObjOk, Shrinks, PendInv;
    FlagPostIs(s, o, flags, set_);
    var bits := FlagPost(s, o, flags, set_).objs[o].bits;
    var k' := FlagWake(s.k, s.k.pend[o], bits);
    SysParts(s);
    FlagWakeExact(s.k, o, bits);
    FlagListed(s, o);
    NotMissedNow(s.k, k', o, bits);
    NewKernel(s, k', o, Flags(bits));
  }

  lemma FlagPostIs(s: Sys, o: Oid, flags: bv32, set_: bool)
    requires IsFlags(s, o)
    ensures var s' := FlagPost(s, o, flags, set_);
      && o in s'.objs && s'.objs[o].Flags?
      && s' == s.(k := FlagWake(s.k, s.k.pend[o], s'.objs[o].bits), objs := s.objs[o := Flags(s'.objs[o].bits)])
  {
  }

  lemma FlagListed(s: Sys, o: Oid)
    requires SysInv(s) && IsFlags(s, o)
    ensures forall t :: t in s.k.pend[o] ==> t in s.k.tasks && s.k.tasks[t].pendOn == OnFlag
  {
    assert ObjOk(s.k, o, s.objs[o]);
  }

  lemma NotMissedNow(k: K, k': K, o: Oid, bits: bv32)
    requires o in k.pend && (forall t :: t in k.pend[o] ==> t in k.tasks && k.tasks[t].pendOn == OnFlag)
    requires Released(k, k', Elements(Hits(k, k.pend[o], bits)), FlagFreed(bits))
    ensures ObjOk(k', o, Flags(bits))
  {
  }

  lemma FlagWakeExact(k: K, o: Oid, bits: bv32)
    requires Inv(k) && o in k.pend && NoneMishandled(k, k.pend[o], bits)
    ensures var k' := FlagWake(k, k.pend[o], bits);
      Inv(k') && Shrinks(k, k') && Released(k, k', Elements(Hits(k, k.pend[o], bits)), FlagFreed(bits))
  {
    hide Inv, FlagWake, ReleaseAll, NoneMishandled, AllWait, CanRelease, Shrinks, Released;
    var l, f := k.pend[o], FlagFreed(bits);
    var hits := Hits(k, l, bits);
    ListWaits(k, o, true);
    HitsFreed(k, l, bits);
    FlagWakeReleases(k, l, bits);
    ReleaseAllKeeps(k, hits, f);
    ReleasedShrinks(k, ReleaseAll(k, hits, f), Elements(hits), f);
  }

  lemma HitsFreed(k: K, l: seq<Tid>, bits: bv32)
    requires Inv(k) && AllWait(k, l) && NoneMishandled(k, l, bits)
    ensures CanRelease(k, Hits(k, l, bits), FlagFreed(bits))
  {
    hide RdyInv, WheelInv, PendInv;
    HitsDistinct(k, l, bits);
  }

  // On the tick wheel without the delay bit.
  predicate Marooned(k: K, t: Tid) {
    t in k.tasks && !k.tasks[t].st.dly && t in k.wheel.due
  }

  lemma FlagRdyElsewhere(k: K, x: Tid, rdy: bv32, t: Tid)
    requires x in k.tasks && x != t && t in k.tasks
    ensures var k' := FlagRdy(k, x, rdy);
      t in k'.tasks && k'.tasks[t] == k.tasks[t] && (t in k.wheel.due ==> t in k'.wheel.due)
  {
  }

  lemma {:induction false} StaysMarooned(k: K, l: seq<Tid>, bits: bv32, t: Tid)
    requires t !in l && Marooned(k, t)
    ensures Marooned(FlagWake(k, l, bits), t)
    decreases |l|
  {
    hide FlagRdy, RdyBits, Satisfied;
    if l != [] {
      var x := l[0];
      if FlagHit(k, x, bits) {
        var rdy := RdyBits(bits, k.tasks[x].flagsPend, k.tasks[x].flagsMode);
        FlagRdyElsewhere(k, x, rdy, t);
        StaysMarooned(FlagRdy(k, x, rdy), l[1..], bits, t);
      } else {
        StaysMarooned(k, l[1..], bits, t);
      }
    }
  }

  lemma FlagRdyMaroons(k: K, t: Tid, rdy: bv32)
    requires t in k.tasks && k.tasks[t].st == PEND_TIMEOUT_SUSPENDED && t in k.wheel.due
    ensures Marooned(FlagRdy(k, t, rdy), t)
  {
  }

  // A waiter suspended during a timeout wait ends up on the wheel without the delay bit.
  lemma {:induction false} WakeMaroons(k: K, l: seq<Tid>, bits: bv32, t: Tid)
    requires t in l && Distinct(l) && FlagHit(k, t, bits)
    requires k.tasks[t].st == PEND_TIMEOUT_SUSPENDED && t in k.wheel.due
    ensures Marooned(FlagWake(k, l, bits), t)
    decreases |l|
  {
    hide FlagRdy, RdyBits, Satisfied;
    var x := l[0];
    assert t != x ==> t in l[1..];
    if FlagHit(k, x, bits) {
      var rdy := RdyBits(bits, k.tasks[x].flagsPend, k.tasks[x].flagsMode);
      if x == t {
        FlagRdyMaroons(k, t, rdy);
        StaysMarooned(FlagRdy(k, t, rdy), l[1..], bits, t);
      } else {
        FlagRdyElsewhere(k, x, rdy, t);
        WakeMaroons(FlagRdy(k, x, rdy), l[1..], bits, t);
      }
    } else {
      WakeMaroons(k, l[1..], bits, t);
    }
  }

  lemma MaroonedBreaks(k: K, t: Tid)
    requires Marooned(k, t)
    ensures !Inv(k)
  {
  }

  lemma MishandledSound(k: K, o: Oid, t: Tid)
    requires Inv(k) && o in k.pend && t in k.pend[o] && t in k.tasks && k.tasks[t].st == PEND_TIMEOUT_SUSPENDED
    ensures Distinct(k.pend[o]) && t in k.wheel.due
  {
  }

  // A post of flags keeps the system consistent exactly when none of the waiters it wakes was
  // suspended during a wait with a timeout.
  lemma FlagPostKeeps(s: Sys, o: Oid, flags: bv32, set_: bool)
    requires SysInv(s) && IsFlags(s, o)
    ensures var s' := FlagPost(s, o, flags, set_);
      SysInv(s') <==> NoneMishandled(s.k, s.k.pend[o], s'.objs[o].bits)
  {
    hide Inv, PostedBits, Satisfied, FlagWake, ObjOk, InboxOk;
    var s' := FlagPost(s, o, flags, set_);
    var bits := s'.objs[o].bits;
    if NoneMishandled(s.k, s.k.pend[o], bits) {
      FlagPostExact(s, o, flags, set_);
    } else {
      var t :| t in s.k.pend[o] && FlagHit(s.k, t, bits) && s.k.tasks[t].st == PEND_TIMEOUT_SUSPENDED;
      MishandledSound(s.k, o, t);
      WakeMaroons(s.k, s.k.pend[o], bits, t);
      MaroonedBreaks(s'.k, t);
    }
  }

  // A task that is on no list may change what it would wait for.
  lemma Annotated(k: K, t: Tid, c: Tcb)
    requires Inv(k) && t in k.tasks && !k.tasks[t].linked
    requires c == k.tasks[t].(flagsPend := c.flagsPend, flagsMode := c.flagsMode, flagsRdy := c.flagsRdy)
    ensures var k' := k.(tasks := k.tasks[t := c]); Inv(k') && Shrinks(k, k')
  {
    hide RdyInv, WheelInv, PendInv;
    assert TcbOk(k.tasks[t]);
    NotLinked(k.tasks, k.pend, t);
    RdyStays(k.tasks, k.rdy, t, c);
    WheelFrame(k.tasks, k.wheel, t, c);
    PendFrame(k.tasks, k.pend, t, c);
    OneTask(k, k.(tasks := k.tasks[t := c]), t, c);
  }

  // A waiter of the other polarity that the flags left behind by a consumer would satisfy.
  predicate Overlooked(k: K, l: seq<Tid>, mode: FlagMode, bits: bv32) {
    exists t :: t in l && FlagHit(k, t, bits) && SetMode(k.tasks[t].flagsMode) != SetMode(mode)
  }

  // Consuming flags can only make the condition of a waiter of the other polarity true.
  lemma ConsumedMissed(k: K, l: seq<Tid>, bits: bv32, rdy: bv32, mode: FlagMode)
    requires NoneMissed(k, l, bits)
    ensures NoneMissed(k, l, Consumed(bits, rdy, mode)) <==> !Overlooked(k, l, mode, Consumed(bits, rdy, mode))
  {
    hide Satisfied, Consumed;
    var bits' := Consumed(bits, rdy, mode);
    forall t | t in l && SetMode(k.tasks[t].flagsMode) == SetMode(mode)
      ensures !FlagHit(k, t, bits')
    {
      if FlagHit(k, t, bits') {
        ConsumedSatisfies(bits, rdy, mode, k.tasks[t].flagsPend, k.tasks[t].flagsMode);
      }
    }
  }

  // What a call of OSFlagPend that returns at once takes from the group.
  predicate FlagPendMisses(s: Sys, o: Oid, flags: bv32, mode: FlagMode, consume: bool)
    requires IsFlags(s, o)
  {
    var bits := s.objs[o].bits;
    consume && Satisfied(bits, flags, mode)
      && Overlooked(s.k, s.k.pend[o], mode, Consumed(bits, RdyBits(bits, flags, mode), mode))
  }

  lemma NewFlags(s: Sys, o: Oid, bits: bv32)
    requires SysInv(s) && IsFlags(s, o)
    ensures SysInv(s.(objs := s.objs[o := Flags(bits)])) <==> NoneMissed(s.k, s.k.pend[o], bits)
  {
    hide Inv, InboxOk, NoneMissed;
    if NoneMissed(s.k, s.k.pend[o], bits) {
      NewContents(s, o, Flags(bits));
    } else {
      assert !ObjOk(s.k, o, Flags(bits));
      assert s.objs[o := Flags(bits)][o] == Flags(bits);
    }
  }

  lemma FlagTaken(s: Sys, o: Oid, rdy: bv32, mode: FlagMode)
    requires SysInv(s) && IsFlags(s, o)
    ensures var bits := Consumed(s.objs[o].bits, rdy, mode);
      SysInv(s.(objs := s.objs[o := Flags(bits)])) <==> !Overlooked(s.k, s.k.pend[o], mode, bits)
  {
    hide SysInv, Inv, Overlooked, NoneMissed, Consumed;
    SysObject(s, o);
    ConsumedMissed(s.k, s.k.pend[o], s.objs[o].bits, rdy, mode);
    NewFlags(s, o, Consumed(s.objs[o].bits, rdy, mode));
  }

  // With waits of one polarity no waiter is ever left with its condition met; with both, the
  // flags a consumer leaves behind may satisfy a waiter of the other polarity, and nobody looks.
  lemma FlagPendKeeps(s: Sys, o: Oid, flags: bv32, mode: FlagMode, consume: bool, block: bool, timeout: Tick)
    requires SysInv(s) && IsFlags(s, o) && Caller(s, block) && s.k.tasks[s.k.cur].st == RDY
    ensures SysInv(FlagPend(s, o, flags, mode, consume, block, timeout)) <==>
      !FlagPendMisses(s, o, flags, mode, consume)
  {
    hide SysInv, RdyBits, Satisfied, Consumed, Overlooked, Pend;
    if Satisfied(s.objs[o].bits, flags, mode) {
      FlagNow(s, o, RdyBits(s.objs[o].bits, flags, mode), mode, consume);
    } else if CanBlock(s.k, block) {
      FlagBlocks(s, o, flags, mode, timeout);
    }
  }

  lemma FlagNow(s: Sys, o: Oid, rdy: bv32, mode: FlagMode, consume: bool)
    requires SysInv(s) && IsFlags(s, o) && s.k.cur in s.k.tasks && s.k.tasks[s.k.cur].st == RDY
    ensures var bits := Consumed(s.objs[o].bits, rdy, mode);
      var k' := s.k.(tasks := s.k.tasks[s.k.cur := s.k.tasks[s.k.cur].(flagsRdy := rdy)]);
      SysInv(s.(k := k', objs := if consume then s.objs[o := Flags(bits)] else s.objs)) <==>
        !(consume && Overlooked(s.k, s.k.pend[o], mode, bits))
  {
    hide SysInv, Inv, TcbOk, PendInv, Overlooked, Shrinks, Consumed;
    var c := s.k.tasks[s.k.cur];
    SysParts(s);
    var k' := s.k.(tasks := s.k.tasks[s.k.cur := c.(flagsRdy := rdy)]);
    var bits := Consumed(s.objs[o].bits, rdy, mode);
    SameOverlooked(s.k, k', o, mode, bits);
    Annotated(s.k, s.k.cur, c.(flagsRdy := rdy));
    ShrunkSys(s, k');
    if consume {
      assert IsFlags(s.(k := k'), o) by { StillFlags(s, k', o); }
      FlagTaken(s.(k := k'), o, rdy, mode);
    }
  }

  lemma StillFlags(s: Sys, k': K, o: Oid)
    requires IsFlags(s, o) && k'.pend == s.k.pend
    ensures IsFlags(s.(k := k'), o)
  {
  }

  lemma SameOverlooked(k: K, k': K, o: Oid, mode: FlagMode, bits: bv32)
    requires o in k.pend && k'.pend == k.pend && k'.tasks.Keys == k.tasks.Keys
    requires forall t :: t in k.tasks ==> SameWait(k.tasks[t], k'.tasks[t])
    ensures Overlooked(k', k.pend[o], mode, bits) <==> Overlooked(k, k.pend[o], mode, bits)
  {
    hide Satisfied;
  }

  lemma FlagBlocks(s: Sys, o: Oid, flags: bv32, mode: FlagMode, timeout: Tick)
    requires SysInv(s) && IsFlags(s, o) && Runs(s.k) && !Satisfied(s.objs[o].bits, flags, mode)
    ensures SysInv(s.(k := Pend(WithFlags(s.k, flags, mode), OnFlag, [o], timeout)))
  {
    hide SysInv, Inv, TcbOk, PendInv, Shrinks, Satisfied, Bare, PendArgs, WithFlags, Pend;
    var c := s.k.tasks[s.k.cur].(flagsPend := flags, flagsMode := mode, flagsRdy := 0);
    SysParts(s);
    var k' := WithFlags(s.k, flags, mode);
    FlagReady(s, o, flags, mode);
    Annotated(s.k, s.k.cur, c);
    WithFlagsIs(s.k, c, flags, mode);
    ShrunkSys(s, k');
    PendSys(s.(k := k'), OnFlag, [o], timeout);
  }

  lemma FlagReady(s: Sys, o: Oid, flags: bv32, mode: FlagMode)
    requires IsFlags(s, o) && Runs(s.k) && !Satisfied(s.objs[o].bits, flags, mode)
    ensures var k' := WithFlags(s.k, flags, mode); Runs(k') && PendArgs(k', OnFlag, [o]) && Bare(k', s.objs[o], OnFlag)
  {
    hide Satisfied;
  }

  lemma WithFlagsIs(k: K, c: Tcb, flags: bv32, mode: FlagMode)
    requires k.cur in k.tasks && c == k.tasks[k.cur].(flagsPend := flags, flagsMode := mode, flagsRdy := 0)
    ensures WithFlags(k, flags, mode) == k.(tasks := k.tasks[k.cur := c])
  {
  }

  predicate FlagFinishMisses(s: Sys, o: Oid, mode: FlagMode, consume: bool)
    requires IsFlags(s, o) && s.k.cur in s.k.tasks
  {
    consume && Overlooked(s.k, s.k.pend[o], mode, Consumed(s.objs[o].bits, s.k.tasks[s.k.cur].flagsRdy, mode))
  }

  lemma FlagFinishKeeps(s: Sys, o: Oid, mode: FlagMode, consume: bool)
    requires SysInv(s) && IsFlags(s, o) && s.k.cur in s.k.tasks
    ensures SysInv(FlagFinish(s, o, mode, consume)) <==> !FlagFinishMisses(s, o, mode, consume)
  {
    hide SysInv, Overlooked, Consumed;
    if consume { FlagTaken(s, o, s.k.tasks[s.k.cur].flagsRdy, mode); }
  }
}
