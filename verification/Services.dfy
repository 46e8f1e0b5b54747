// The object services as the program runs them, over the kernel of Kernel.dfy: os_sem.c,
// os_q.c, os_flag.c, os_mutex.c, os_pend_multi.c. Each is proved to do to the whole state
// what its function in ObjectSpec says; OSSched follows as a step of its own.

module Services {
  import opened Ticks
  import opened Lists
  import opened Tasks
  import opened FlagBits
  import opened KernelState
  import opened KernelSteps
  import opened KernelReleases
  import opened ObjectSpec
  import opened ObjectInv
  import opened ObjectSteps
  import ObjectRuns
  import ObjectFlow
  import opened KernelClass = Kernel

  datatype Link = NoLink | To(t: Tid)

  // HeadPtr, and NextPtr of the entry of t, of a pend list.
  function First(l: seq<Tid>): Link {
    if l == [] then NoLink else To(l[0])
  }

  function Next(l: seq<Tid>, t: Tid): Link {
    if l == [] then NoLink else if l[0] == t then First(l[1..]) else Next(l[1..], t)
  }

  lemma {:induction false} NextAt(l: seq<Tid>, i: nat)
    requires Distinct(l) && i < |l|
    ensures Next(l, l[i]) == if i + 1 < |l| then To(l[i+1]) else NoLink
  {
    if i > 0 {
      NextAt(l[1..], i - 1);
    }
  }

  // ---------------------------------------------------------------- walks down a pend list

  // The loop of OS_SemPost and OS_QPost: l is what is left of the tasks to be posted to,
  // they head the list of o, and posting to them completes the call.
  ghost predicate Posting(k0: K, k: K, o: Oid, l0: seq<Tid>, l: seq<Tid>, msg: Msg) {
    && Inv(k) && o in k.pend && l <= k.pend[o]
    && PostAll(k, l, o, msg) == PostAll(k0, l0, o, msg)
  }

  lemma HeadWaits(k: K, o: Oid)
    requires Inv(k) && o in k.pend && k.pend[o] != []
    ensures var t := k.pend[o][0];
      t in k.tasks && TcbOk(k.tasks[t]) && PendInv(k.tasks, k.pend) && k.tasks[t].st.pend && k.tasks[t].linked
      && Without(k.pend[o], t) == k.pend[o][1..]
  {
    ObjectFlow.MostUrgent(k, o);
  }

  lemma PostingNext(k0: K, k: K, o: Oid, l0: seq<Tid>, l: seq<Tid>, msg: Msg)
    requires Posting(k0, k, o, l0, l, msg) && l != []
    ensures l[0] in k.tasks && TcbOk(k.tasks[l[0]]) && PendInv(k.tasks, k.pend) && First(k.pend[o]) == To(l[0])
    ensures var k' := Post(k, l[0], o, msg);
      Posting(k0, k', o, l0, l[1..], msg) && k'.pend[o] == k.pend[o][1..] && Next(k.pend[o], l[0]) == First(k'.pend[o])
  {
    hide Inv, PendInv, TcbOk, Waits;
    var t := k.pend[o][0];
    HeadWaits(k, o);
    PostKeeps(k, t, o, msg);
    assert Post(k, t, o, msg).pend[o] == k.pend[o][1..];
  }

  lemma PostingStarts(k: K, o: Oid, all: bool, msg: Msg)
    requires Inv(k) && o in k.pend
    ensures var l := Chosen(k.pend[o], all); Posting(k, k, o, l, l, msg)
  {
  }

  // The loops of OSxxxPendAbort and OSxxxDel, which take the head of the list every time.
  ghost predicate Cancelling(k0: K, k: K, o: Oid, l0: seq<Tid>, l: seq<Tid>, status: PendStatus) {
    && Inv(k) && o in k.pend && l <= k.pend[o]
    && CancelAll(k, l, o, status) == CancelAll(k0, l0, o, status)
  }

  lemma CancellingNext(k0: K, k: K, o: Oid, l0: seq<Tid>, l: seq<Tid>, status: PendStatus)
    requires Cancelling(k0, k, o, l0, l, status) && l != []
    ensures l[0] in k.tasks && TcbOk(k.tasks[l[0]]) && PendInv(k.tasks, k.pend) && l[0] == k.pend[o][0]
    ensures var k' := Cancel(k, l[0], o, status);
      Cancelling(k0, k', o, l0, l[1..], status) && k'.pend[o] == k.pend[o][1..]
  {
    var t := k.pend[o][0];
    assert t == l[0];
    ObjectFlow.MostUrgent(k, o);
    CancelKeeps(k, t, o, status);
    assert TcbOk(k.tasks[t]);
    hide Inv;
    assert Cancel(k, t, o, status).pend[o] == k.pend[o][1..];
  }

  lemma CancellingStarts(k: K, o: Oid, all: bool, status: PendStatus)
    requires Inv(k) && o in k.pend
    ensures var l := Chosen(k.pend[o], all); Cancelling(k, k, o, l, l, status)
  {
  }

  // The walk of OS_FlagPost down the list as it was, l0: what is left of the first i entries
  // stands in front of the others.
  ghost predicate PendSound(k: K) {
    PendInv(k.tasks, k.pend) && forall t :: t in k.tasks ==> TcbOk(k.tasks[t])
  }

  ghost predicate Walking(k0: K, k: K, o: Oid, l0: seq<Tid>, i: nat, left: seq<Tid>, bits: bv32) {
    && PendSound(k) && o in k.pend && i <= |l0| && k.pend[o] == left + l0[i..]
    && FlagWake(k, l0[i..], bits) == FlagWake(k0, l0, bits)
  }

  lemma WalkingHere(k0: K, k: K, o: Oid, l0: seq<Tid>, i: nat, left: seq<Tid>, bits: bv32)
    requires Walking(k0, k, o, l0, i, left, bits) && i < |l0|
    ensures var t := l0[i];
      && t in k.tasks && TcbOk(k.tasks[t]) && PendInv(k.tasks, k.pend) && k.tasks[t].st.pend
      && Next(k.pend[o], t) == (if i + 1 < |l0| then To(l0[i+1]) else NoLink)
  {
    assert k.pend[o][|left|] == l0[i];
    assert l0[i] in k.pend[o];
    assert Waits(k.tasks, l0[i], o);
    NextAt(k.pend[o], |left|);
  }

  lemma FlagRdySound(k: K, t: Tid, rdy: bv32)
    requires PendSound(k) && t in k.tasks && k.tasks[t].st.pend
    ensures var k' := FlagRdy(k, t, rdy);
      PendSound(k') && k'.pend.Keys == k.pend.Keys && forall o :: o in k.pend ==> k'.pend[o] == Without(k.pend[o], t)
  {
    var c := Freed(k.tasks[t].(flagsRdy := rdy), PendOk);
    assert TcbOk(k.tasks[t]) && TcbOk(c);
    if k.tasks[t].linked {
      hide PendInv;
      PendAfterUnpend(k.tasks, k.pend, t, c);
    } else {
      NotLinked(k.tasks, k.pend, t);
      hide PendInv;
      PendFrame(k.tasks, k.pend, t, c);
    }
  }

  lemma WalkingNext(k0: K, k: K, o: Oid, l0: seq<Tid>, i: nat, left: seq<Tid>, bits: bv32)
    requires Walking(k0, k, o, l0, i, left, bits) && i < |l0|
    ensures FlagHit(k, l0[i], bits) ==>
      Walking(k0, FlagRdy(k, l0[i], RdyBits(bits, k.tasks[l0[i]].flagsPend, k.tasks[l0[i]].flagsMode)), o, l0, i + 1,
        left, bits)
    ensures !FlagHit(k, l0[i], bits) ==> Walking(k0, k, o, l0, i + 1, left + [l0[i]], bits)
  {
    var t := l0[i];
    WalkingHere(k0, k, o, l0, i, left, bits);
    assert Distinct(k.pend[o]);
    hide PendSound, PendInv, FlagHit, FlagRdy;
    assert l0[i..][1..] == l0[i+1..];
    if FlagHit(k, t, bits) {
      FlagRdySound(k, t, RdyBits(bits, k.tasks[t].flagsPend, k.tasks[t].flagsMode));
      assert k.pend[o][|left|] == t;
      WithoutIsRemoveAt(k.pend[o], |left|);
      assert RemoveAt(k.pend[o], |left|) == left + l0[i+1..];
    } else {
      assert left + l0[i..] == (left + [t]) + l0[i+1..];
    }
  }

  lemma WalkingStarts(k: K, o: Oid, bits: bv32)
    requires Inv(k) && o in k.pend
    ensures Walking(k, k, o, k.pend[o], 0, [], bits)
  {
    assert [] + k.pend[o][0..] == k.pend[o] && k.pend[o][0..] == k.pend[o];
  }

  lemma WalkingEnds(k0: K, k: K, o: Oid, l0: seq<Tid>, left: seq<Tid>, bits: bv32)
    requires Walking(k0, k, o, l0, |l0|, left, bits)
    ensures k == FlagWake(k0, l0, bits)
  {
    assert l0[|l0|..] == [];
  }

  class Services {
    const k: Kernel
    var objs: map<Oid, Obj>
    var inbox: map<Tid, Inbox>

    constructor (spokes: nat)
      requires spokes > 0
      ensures State() == ObjectRuns.Initial(spokes) && Valid() && fresh(k)
    {
      k := new Kernel(spokes);
      objs := map[];
      inbox := map[IDLE := Inbox([], 0)];
      new;
      ObjectRuns.InitialKeeps(spokes);
    }

    ghost function State(): Sys
      reads this, k
    {
      Sys(k.State(), objs, inbox)
    }

    ghost predicate Valid()
      reads this, k
    {
      SysInv(State())
    }

    // The next task is looked up before the present one leaves the list.
    method PostWaiters(o: Oid, all: bool, msg: Msg)
      requires k.Valid() && o in k.pend
      modifies k
      ensures k.State() == PostAll(old(k.State()), Chosen(old(k.pend)[o], all), o, msg)
    {
      ghost var k0 := k.State();
      ghost var l0 := Chosen(k.pend[o], all);
      ghost var l := l0;
      PostingStarts(k0, o, all, msg);
      hide Posting;
      var cnt := if all then |k.pend[o]| else if k.pend[o] == [] then 0 else 1;
      var p := First(k.pend[o]);
      while cnt > 0
        invariant cnt == |l| && Posting(k0, k.State(), o, l0, l, msg)
        invariant o in k.pend && p == First(k.pend[o])
      {
        PostingNext(k0, k.State(), o, l0, l, msg);
        var t := p.t;
        var next := Next(k.pend[o], t);
        k.Post(t, o, msg);
        p := next;
        cnt := cnt - 1;
        l := l[1..];
      }
      PostingEnds(k0, k.State(), o, l0, msg);
    }

    method CancelWaiters(o: Oid, all: bool, status: PendStatus) returns (nbrTasks: nat)
      requires k.Valid() && o in k.pend
      modifies k
      ensures k.State() == CancelAll(old(k.State()), Chosen(old(k.pend)[o], all), o, status)
      ensures nbrTasks == |Chosen(old(k.pend)[o], all)|
    {
      ghost var k0 := k.State();
      ghost var l0 := Chosen(k.pend[o], all);
      ghost var l := l0;
      CancellingStarts(k0, o, all, status);
      hide Cancelling;
      nbrTasks := 0;
      while k.pend[o] != [] && (all || nbrTasks == 0)
        invariant Cancelling(k0, k.State(), o, l0, l, status)
        invariant o in k.pend && nbrTasks + |l| == |l0|
        invariant l == if all then k.pend[o] else if nbrTasks == 0 then Chosen(k.pend[o], false) else []
        decreases |l|
      {
        CancellingNext(k0, k.State(), o, l0, l, status);
        k.Cancel(k.pend[o][0], o, status);
        nbrTasks := nbrTasks + 1;
        l := l[1..];
      }
      CancellingEnds(k0, k.State(), o, l0, status);
    }

    // ------------------------------------------------------------ os_sem.c

    method SemPend(o: Oid, block: bool, timeout: Tick) returns (got: bool)
      requires Valid() && IsSem(State(), o) && Caller(State(), block)
      modifies this`objs, k
      ensures State() == ObjectSpec.SemPend(old(State()), o, block, timeout) && Valid()
      ensures got == (old(objs)[o].ctr > 0)
    {
      hide SysInv, Inv, PendInv, TcbOk, ObjOk;
      CallerSound(State());
      SemPendKeeps(State(), o, block, timeout);
      got := objs[o].ctr > 0;
      if got {
        objs := objs[o := Sem(objs[o].ctr - 1)];
      } else if block && k.schedLock == 0 {
        MayWait(State(), OnSem, o);
        k.Pend(OnSem, [o], timeout);
      }
    }

    method SemPost(o: Oid, all: bool) returns (ok: bool)
      requires Valid() && IsSem(State(), o)
      modifies this`objs, k
      ensures State() == ObjectSpec.SemPost(old(State()), o, all) && Valid()
      ensures ok == (old(k.pend)[o] != [] || old(objs)[o].ctr != CTR_MAX)
    {
      hide SysInv, Inv, PendInv, TcbOk, ObjOk;
      SysParts(State());
      SemPostKeeps(State(), o, all);
      if k.pend[o] == [] {
        if objs[o].ctr == CTR_MAX {
          return false;
        }
        objs := objs[o := Sem(objs[o].ctr + 1)];
      } else {
        PostWaiters(o, all, NULL_MSG);
      }
      return true;
    }

    method SemSet(o: Oid, cnt: Tick) returns (ok: bool)
      requires Valid() && IsSem(State(), o)
      modifies this`objs
      ensures State() == ObjectSpec.SemSet(old(State()), o, cnt) && Valid()
      ensures ok == (old(objs)[o].ctr > 0 || k.pend[o] == [])
    {
      hide SysInv;
      SemSetKeeps(State(), o, cnt);
      if objs[o].ctr > 0 {
        objs := objs[o := Sem(cnt)];
      } else {
        if k.pend[o] != [] {
          return false;
        }
        objs := objs[o := Sem(cnt)];
      }
      return true;
    }

    // ------------------------------------------------------------ os_q.c

    method QPend(o: Oid, block: bool, timeout: Tick) returns (got: bool, msg: Msg)
      requires Valid() && IsQueue(State(), o) && Caller(State(), block)
      modifies this`objs, k
      ensures State() == ObjectSpec.QPend(old(State()), o, block, timeout) && Valid()
      ensures got == (old(objs)[o].msgs != []) && (got ==> msg == old(objs)[o].msgs[0])
    {
      hide SysInv, Inv, PendInv, TcbOk, ObjOk;
      CallerSound(State());
      QPendKeeps(State(), o, block, timeout);
      var q := objs[o];
      got, msg := q.msgs != [], NULL_MSG;
      if got {
        msg := q.msgs[0];
        objs := objs[o := q.(msgs := q.msgs[1..])];
      } else if block && k.schedLock == 0 {
        MayWait(State(), OnQ, o);
        k.Pend(OnQ, [o], timeout);
      }
    }

    method QPost(o: Oid, msg: Msg, lifo: bool, all: bool, poolEmpty: bool) returns (ok: bool)
      requires Valid() && IsQueue(State(), o)
      modifies this`objs, k
      ensures State() == ObjectSpec.QPost(old(State()), o, msg, lifo, all, poolEmpty) && Valid()
      ensures ok == (old(k.pend)[o] != [] || (|old(objs)[o].msgs| < old(objs)[o].cap && !poolEmpty))
    {
      hide SysInv, Inv, PendInv, TcbOk, ObjOk;
      SysParts(State());
      QPostKeeps(State(), o, msg, lifo, all, poolEmpty);
      if k.pend[o] == [] {
        var q := objs[o];
        if |q.msgs| >= q.cap || poolEmpty {
          return false;
        }
        objs := objs[o := q.(msgs := if lifo then [msg] + q.msgs else q.msgs + [msg])];
      } else {
        PostWaiters(o, all, msg);
      }
      return true;
    }

    // ------------------------------------------------------------ os_flag.c

    // One turn of the walk of OS_FlagPost: the next entry is looked up before the present one
    // may leave the list.
    method FlagTurn(o: Oid, t: Tid, bits: bv32, ghost k0: K, ghost l0: seq<Tid>, ghost i: nat, ghost left: seq<Tid>)
      returns (next: Link, ghost left': seq<Tid>)
      requires i < |l0| && t == l0[i] && Walking(k0, k.State(), o, l0, i, left, bits)
      modifies k
      ensures Walking(k0, k.State(), o, l0, i + 1, left', bits)
      ensures next == if i + 1 < |l0| then To(l0[i+1]) else NoLink
    {
      WalkingHere(k0, k.State(), o, l0, i, left, bits);
      WalkingNext(k0, k.State(), o, l0, i, left, bits);
      hide PendSound, PendInv, TcbOk, FlagRdy, FlagWake;
      next, left' := Next(k.pend[o], t), left;
      hide Walking;
      if Satisfied(bits, k.tasks[t].flagsPend, k.tasks[t].flagsMode) {
        k.FlagTaskRdy(t, RdyBits(bits, k.tasks[t].flagsPend, k.tasks[t].flagsMode));
      } else {
        left' := left + [t];
      }
    }

    method FlagWalk(o: Oid, bits: bv32)
      requires k.Valid() && o in k.pend
      modifies k
      ensures k.State() == FlagWake(old(k.State()), old(k.pend)[o], bits)
    {
      ghost var k0 := k.State();
      ghost var l0, i, left := k.pend[o], 0, [];
      WalkingStarts(k0, o, bits);
      hide Walking, FlagWake, Inv;
      var p := First(k.pend[o]);
      while p != NoLink
        invariant i <= |l0| && Walking(k0, k.State(), o, l0, i, left, bits)
        invariant p == (if i < |l0| then To(l0[i]) else NoLink)
        decreases |l0| - i
      {
        p, left := FlagTurn(o, p.t, bits, k0, l0, i, left);
        i := i + 1;
      }
      WalkingEnds(k0, k.State(), o, l0, left, bits);
    }

    method FlagPost(o: Oid, flags: bv32, set_: bool)
      requires Valid() && IsFlags(State(), o)
      modifies this`objs, k
      ensures State() == ObjectSpec.FlagPost(old(State()), o, flags, set_)
      ensures Valid() <==> NoneMishandled(old(k.State()), old(k.pend)[o], objs[o].bits)
    {
      hide SysInv, Inv, FlagWake, PostedBits, NoneMishandled;
      SysParts(State());
      FlagPostKeeps(State(), o, flags, set_);
      var bits := UpdateFlags(objs[o].bits, flags, set_);
      objs := objs[o := Flags(bits)];
      FlagWalk(o, bits);
    }

    method UpdateFlags(bits: bv32, flags: bv32, set_: bool) returns (r: bv32)
      ensures r == PostedBits(bits, flags, set_)
    {
      if set_ {
        r := bits | flags;
      } else {
        r := bits & !flags;
      }
    }

    // The bits a task asking for flags would get, and whether they are enough.
    static method Look(bits: bv32, flags: bv32, mode: FlagMode) returns (rdy: bv32, enough: bool)
      ensures rdy == RdyBits(bits, flags, mode) && enough == Satisfied(bits, flags, mode)
    {
      rdy := RdyBits(bits, flags, mode);
      enough := Satisfied(bits, flags, mode);
    }

    // The group after a task consumed the bits it got.
    static method TakeBits(bits: bv32, rdy: bv32, mode: FlagMode) returns (left: bv32)
      ensures left == Consumed(bits, rdy, mode)
    {
      left := Consumed(bits, rdy, mode);
    }

    // OSFlagPend up to the point where the task may be switched out; OS_FlagBlock notes in the
    // TCB what the task waits for.
    method FlagPend(o: Oid, flags: bv32, mode: FlagMode, consume: bool, block: bool, timeout: Tick) returns (got: bool)
      requires Valid() && IsFlags(State(), o) && Caller(State(), block) && k.tasks[k.cur].st == RDY
      modifies this`objs, k
      ensures State() == ObjectSpec.FlagPend(old(State()), o, flags, mode, consume, block, timeout)
      ensures got <==> Asked(old(objs)[o].bits, flags, mode)
      ensures Valid() <==> !FlagPendMisses(old(State()), o, flags, mode, consume)
    {
      hide SysInv, Inv, PendInv, TcbOk, KernelSteps.Pend, RdyBits, Satisfied, Asked, Consumed, FlagPendMisses;
      CallerSound(State());
      SatisfiedAsked(objs[o].bits, flags, mode);
      FlagPendKeeps(State(), o, flags, mode, consume, block, timeout);
      var bits := objs[o].bits;
      var rdy;
      rdy, got := Look(bits, flags, mode);
      if got {
        if consume {
          bits := TakeBits(bits, rdy, mode);
          objs := objs[o := Flags(bits)];
        }
        k.tasks := k.tasks[k.cur := k.tasks[k.cur].(flagsRdy := rdy)];
      } else if block && k.schedLock == 0 {
        BlockForFlags(o, flags, mode, timeout);
      }
    }

    // OS_FlagBlock.
    method BlockForFlags(o: Oid, flags: bv32, mode: FlagMode, timeout: Tick)
      requires Runs(k.State()) && o in k.pend && TcbOk(k.tasks[k.cur]) && PendInv(k.tasks, k.pend)
      modifies k
      ensures k.State() == KernelSteps.Pend(WithFlags(old(k.State()), flags, mode), OnFlag, [o], timeout)
    {
      hide PendInv, TcbOk, KernelSteps.Pend;
      MayWaitForFlags(State(), o, flags, mode);
      k.tasks := k.tasks[k.cur := k.tasks[k.cur].(flagsPend := flags, flagsMode := mode, flagsRdy := 0)];
      k.Pend(OnFlag, [o], timeout);
    }

    // The rest of OSFlagPend, when the task runs again after a post.
    method FlagFinish(o: Oid, mode: FlagMode, consume: bool) returns (rdy: bv32)
      requires Valid() && IsFlags(State(), o) && k.cur in k.tasks
      modifies this`objs
      ensures State() == ObjectSpec.FlagFinish(old(State()), o, mode, consume)
      ensures rdy == k.tasks[k.cur].flagsRdy
      ensures Valid() <==> !FlagFinishMisses(old(State()), o, mode, consume)
    {
      hide SysInv, Consumed, Overlooked;
      FlagFinishKeeps(State(), o, mode, consume);
      rdy := k.tasks[k.cur].flagsRdy;
      if consume {
        objs := objs[o := Flags(Consumed(objs[o].bits, rdy, mode))];
      }
    }

    // ------------------------------------------------------------ os_task.c

    method TaskQPend(block: bool, timeout: Tick) returns (got: bool, msg: Msg)
      requires Valid() && Caller(State(), block) && k.tasks[k.cur].st == RDY && k.cur in inbox
      modifies this`inbox, k
      ensures State() == ObjectSpec.TaskQPend(old(State()), block, timeout) && Valid()
      ensures got == (old(inbox)[old(k.cur)].msgs != []) && (got ==> msg == old(inbox)[old(k.cur)].msgs[0])
    {
      hide SysInv, Inv, PendInv, TcbOk;
      CallerSound(State());
      ObjectRuns.TaskQPendKeeps(State(), block, timeout);
      var q := inbox[k.cur];
      got, msg := q.msgs != [], NULL_MSG;
      if got {
        msg := q.msgs[0];
        inbox := inbox[k.cur := q.(msgs := q.msgs[1..])];
      } else if block && k.schedLock == 0 {
        k.Pend(OnTaskQ, [], timeout);
      }
    }

    method TaskQPost(t: Tid, msg: Msg, lifo: bool, poolEmpty: bool) returns (ok: bool)
      requires Valid() && t in k.tasks && t in inbox
      modifies this`inbox, k
      ensures State() == ObjectSpec.TaskQPost(old(State()), t, msg, lifo, poolEmpty) && Valid()
      ensures ok == (old(k.tasks)[t].pendOn == OnTaskQ || (|old(inbox)[t].msgs| < old(inbox)[t].cap && !poolEmpty))
    {
      hide SysInv, Inv, PendInv, TcbOk;
      TaskSound(State(), t);
      ObjectRuns.TaskQPostKeeps(State(), t, msg, lifo, poolEmpty);
      if k.tasks[t].pendOn == OnTaskQ {
        k.Post(t, 0, msg);
      } else {
        var q := inbox[t];
        if |q.msgs| >= q.cap || poolEmpty {
          return false;
        }
        inbox := inbox[t := q.(msgs := if lifo then [msg] + q.msgs else q.msgs + [msg])];
      }
      return true;
    }

    method TaskSemPost(t: Tid)
      requires Valid() && t in k.tasks
      modifies k
      ensures State() == ObjectSpec.TaskSemPost(old(State()), t) && Valid()
    {
      hide SysInv, Inv, PendInv, TcbOk;
      TaskSound(State(), t);
      ObjectRuns.TaskSemPostKeeps(State(), t);
      if k.tasks[t].pendOn == OnTaskSem {
        k.Post(t, 0, NULL_MSG);
      }
    }

    // ------------------------------------------------------------ os_pend_multi.c

    // OS_PendMultiValidate.
    method MultiValidate(l: seq<Oid>) returns (valid: bool)
      ensures valid == forall o :: o in l ==> o in objs && (objs[o].Sem? || objs[o].Queue?)
    {
      var i := 0;
      while i < |l|
        invariant i <= |l| && forall j :: 0 <= j < i ==> l[j] in objs && (objs[l[j]].Sem? || objs[l[j]].Queue?)
      {
        if !(l[i] in objs && (objs[l[i]].Sem? || objs[l[i]].Queue?)) {
          return false;
        }
        i := i + 1;
      }
      return true;
    }

    // OS_PendMultiGetRdy: how many of the objects had something to give, and what.
    method MultiGetRdy(l: seq<Oid>) returns (nbrRdy: nat, tbl: seq<PendData>)
      requires Distinct(l) && forall o :: o in l ==> o in objs
      modifies this`objs
      ensures objs == TakeAll(old(objs), l)
      ensures nbrRdy == |ReadyOnes(old(objs), l)| && Filled(tbl, old(objs), l)
    {
      var i := 0;
      nbrRdy, tbl := 0, [];
      assert TakeAll(objs, l[..0]) == objs;
      while i < |l|
        invariant i <= |l| && objs == TakeAll(old(objs), l[..i])
        invariant nbrRdy == |ReadyOnes(old(objs), l[..i])| && Filled(tbl, old(objs), l[..i])
      {
        var o := l[i];
        TakeNext(old(objs), l, i);
        NextReady(old(objs), l, i);
        hide TakeAll, HasOne, ReadyOnes;
        var entry := PendData(o, false, NULL_MSG);
        if HasOne(objs[o]) {
          entry := entry.(ready := true, msg := if objs[o].Queue? then objs[o].msgs[0] else NULL_MSG);
          nbrRdy := nbrRdy + 1;
        }
        tbl := tbl + [entry];
        objs := objs[o := TakeOne(objs[o])];
        i := i + 1;
      }
      assert l[..|l|] == l;
    }

    method MultiPend(l: seq<Oid>, block: bool, timeout: Tick) returns (nbrRdy: nat, tbl: seq<PendData>)
      requires Valid() && MultiValid(State(), l) && Distinct(l) && Caller(State(), block)
      modifies this`objs, k
      ensures State() == ObjectSpec.MultiPend(old(State()), l, block, timeout) && Valid()
      ensures nbrRdy == |ReadyOnes(old(objs), l)| && Filled(tbl, old(objs), l)
    {
      hide SysInv, Inv, PendInv, TcbOk, TakeAll, HasOne, Filled, ReadyOnes;
      MultiPendKeeps(State(), l, block, timeout);
      NothingTaken(objs, l);
      NoneReady(objs, l);
      CallerSound(State());
      nbrRdy, tbl := MultiGetRdy(l);
      if nbrRdy == 0 && block && k.schedLock == 0 {
        k.Pend(OnMulti, l, timeout);
      }
    }

    // ------------------------------------------------------------ os_mutex.c

    method MutexPend(o: Oid, block: bool, timeout: Tick)
      requires Valid() && IsMutex(State(), o) && Caller(State(), block)
      modifies this`objs, k
      ensures State() == ObjectSpec.MutexPend(old(State()), o, block, timeout)
      ensures Valid() <==> !(old(objs)[o].owner == Task(old(k.cur)) && old(objs)[o].nest == NEST_MAX)
    {
      hide SysInv, Inv, PendInv, TcbOk;
      ObjectRuns.MutexPendKeeps(State(), o, block, timeout);
      var m := objs[o];
      var prio := k.tasks[k.cur].prio;
      if m.nest == 0 {
        objs := objs[o := Mutex(Task(k.cur), prio, 1)];
      } else if m.owner == Task(k.cur) {
        objs := objs[o := m.(nest := if m.nest == NEST_MAX then 0 else m.nest + 1)];
      } else if block && k.schedLock == 0 {
        if m.owner.Task? && m.owner.t !in k.tasks {
          return;
        }
        MutexWaits(State(), o);
        if m.owner.Task? && k.tasks[m.owner.t].prio > prio {
          k.Reprio(m.owner.t, prio, AtHead, true);
        }
        k.Pend(OnMutex, [o], timeout);
      }
    }

    method MutexPost(o: Oid) returns (ok: bool)
      requires Valid() && IsMutex(State(), o) && k.cur in k.tasks && k.tasks[k.cur].st == RDY
      modifies this`objs, k
      ensures State() == ObjectSpec.MutexPost(old(State()), o) && Valid()
      ensures ok == (old(objs)[o].owner == Task(old(k.cur)) && old(objs)[o].nest == 1)
    {
      hide SysInv, Inv, PendInv, TcbOk, ObjOk;
      ObjectRuns.MutexPostKeeps(State(), o);
      CallerSound(State());
      var m := objs[o];
      if m.owner != Task(k.cur) {
        return false;
      }
      if m.nest != 1 {
        objs := objs[o := m.(nest := if m.nest == 0 then NEST_MAX else m.nest - 1)];
        return false;
      }
      if k.pend[o] == [] {
        objs := objs[o := m.(owner := Nobody, nest := 0)];
        return true;
      }
      MutexGives(State(), o);
      Unboost(m.orig);
      var t := k.pend[o][0];
      objs := objs[o := Mutex(Task(t), k.tasks[t].prio, 1)];
      k.Post(t, o, NULL_MSG);
      return true;
    }

    method Unboost(prio: Prio)
      requires k.Sound(k.cur)
      modifies k
      ensures k.State() == ObjectSpec.Unboost(old(k.State()), prio)
    {
      hide PendInv, TcbOk;
      if k.tasks[k.cur].prio != prio {
        k.Reprio(k.cur, prio, AtTail, true);
        k.prioCur := prio;
      }
    }

    // ------------------------------------------------------------ aborting and deleting

    method PendAbortObj(o: Oid, all: bool) returns (nbrTasks: nat)
      requires Valid() && o in k.pend
      modifies k
      ensures State() == ObjectSpec.PendAbortObj(old(State()), o, all) && Valid()
      ensures nbrTasks == if old(k.pend)[o] == [] then 0 else if all then |old(k.pend)[o]| else 1
    {
      AbortKeeps(State(), o, all);
      nbrTasks := CancelWaiters(o, all, PendAbort);
    }

    method DelObj(o: Oid, always: bool) returns (nbrTasks: nat)
      requires Valid() && o in k.pend
      modifies this`objs, k
      ensures State() == ObjectSpec.DelObj(old(State()), o, always) && Valid()
      ensures nbrTasks == |old(k.pend)[o]|
    {
      hide SysInv, Inv;
      SysParts(State());
      DelKeeps(State(), o, always);
      nbrTasks := |k.pend[o]|;
      if nbrTasks == 0 || always {
        assert Chosen(k.pend[o], true) == k.pend[o];
        var n := CancelWaiters(o, true, PendDel);
        objs := objs - {o};
      }
    }

    method MutexDel(o: Oid, always: bool) returns (nbrTasks: nat)
      requires Valid() && IsMutex(State(), o)
      modifies this`objs, k
      ensures State() == ObjectSpec.MutexDel(old(State()), o, always) && Valid()
      ensures nbrTasks == if always && Gone(old(k.State()), old(objs)[o].owner) then 0 else |old(k.pend)[o]|
    {
      ghost var s := State();
      hide SysInv, Inv, PendInv, TcbOk, ObjOk;
      ObjectRuns.MutexDelKeeps(s, o, always);
      nbrTasks := |k.pend[o]|;
      var m := objs[o];
      if always && m.owner.Task? && m.owner.t !in k.tasks {
        return 0;
      }
      if always && m.owner.Task? && k.tasks[m.owner.t].prio != m.orig {
        ObjectRuns.Reprioritised(s, m.owner.t, m.orig, AtTail);
        TaskSound(s, m.owner.t);
        k.Reprio(m.owner.t, m.orig, AtTail, true);
      }
      var n := DelObj(o, always);
    }
  }

  lemma PostingEnds(k0: K, k: K, o: Oid, l0: seq<Tid>, msg: Msg)
    requires Posting(k0, k, o, l0, [], msg)
    ensures k == PostAll(k0, l0, o, msg) && Inv(k)
  {
  }

  lemma CancellingEnds(k0: K, k: K, o: Oid, l0: seq<Tid>, status: PendStatus)
    requires Cancelling(k0, k, o, l0, [], status)
    ensures k == CancelAll(k0, l0, o, status) && Inv(k)
  {
  }

  lemma TaskSound(s: Sys, t: Tid)
    requires SysInv(s) && t in s.k.tasks
    ensures TcbOk(s.k.tasks[t]) && PendInv(s.k.tasks, s.k.pend)
  {
  }

  lemma MayWaitForFlags(s: Sys, o: Oid, flags: bv32, mode: FlagMode)
    requires Runs(s.k) && o in s.k.pend && TcbOk(s.k.tasks[s.k.cur]) && PendInv(s.k.tasks, s.k.pend)
    ensures var k' := WithFlags(s.k, flags, mode);
      Runs(k') && PendArgs(k', OnFlag, [o]) && TcbOk(k'.tasks[k'.cur]) && PendInv(k'.tasks, k'.pend)
  {
    hide PendInv;
    PendFrame(s.k.tasks, s.k.pend, s.k.cur, s.k.tasks[s.k.cur].(flagsPend := flags, flagsMode := mode, flagsRdy := 0));
  }

  lemma MayWait(s: Sys, on: PendOn, o: Oid)
    requires Runs(s.k) && o in s.k.pend && on != OnNothing && on != OnTaskQ && on != OnTaskSem
    ensures PendArgs(s.k, on, [o])
  {
  }

  lemma CallerSound(s: Sys)
    requires SysInv(s) && s.k.cur in s.k.tasks
    ensures TcbOk(s.k.tasks[s.k.cur]) && PendInv(s.k.tasks, s.k.pend)
  {
  }

  // The objects of a table that have something to give.
  ghost function ReadyOnes(objs: map<Oid, Obj>, l: seq<Oid>): set<Oid> {
    set o | o in l && o in objs && HasOne(objs[o])
  }

  // RdyObjPtr and RdyMsgPtr of every entry.
  ghost predicate Filled(tbl: seq<PendData>, objs: map<Oid, Obj>, l: seq<Oid>) {
    |tbl| == |l| && forall i :: 0 <= i < |l| && l[i] in objs ==>
      var b := objs[l[i]];
      tbl[i] == PendData(l[i], HasOne(b), if HasOne(b) && b.Queue? then b.msgs[0] else NULL_MSG)
  }

  lemma NextReady(objs: map<Oid, Obj>, l: seq<Oid>, i: nat)
    requires Distinct(l) && i < |l| && l[i] in objs
    ensures |ReadyOnes(objs, l[..i+1])| == |ReadyOnes(objs, l[..i])| + if HasOne(objs[l[i]]) then 1 else 0
  {
    assert l[..i+1] == l[..i] + [l[i]] && l[i] !in l[..i];
    assert ReadyOnes(objs, l[..i+1]) == ReadyOnes(objs, l[..i]) + if HasOne(objs[l[i]]) then {l[i]} else {};
  }

  lemma NoneReady(objs: map<Oid, Obj>, l: seq<Oid>)
    requires forall o :: o in l ==> o in objs
    ensures |ReadyOnes(objs, l)| > 0 <==> exists o :: o in l && HasOne(objs[o])
  {
    if exists o :: o in l && HasOne(objs[o]) {
      var o :| o in l && HasOne(objs[o]);
      assert o in ReadyOnes(objs, l);
    } else {
      assert ReadyOnes(objs, l) == {};
    }
  }

  lemma TakeNext(objs: map<Oid, Obj>, l: seq<Oid>, i: nat)
    requires Distinct(l) && i < |l| && l[i] in objs
    ensures var now := TakeAll(objs, l[..i]);
      now[l[i]] == objs[l[i]] && TakeAll(objs, l[..i+1]) == now[l[i] := TakeOne(objs[l[i]])]
    ensures forall o :: o in l[..i+1] <==> o in l[..i] || o == l[i]
  {
    assert l[..i+1] == l[..i] + [l[i]];
  }

  lemma NothingTaken(objs: map<Oid, Obj>, l: seq<Oid>)
    requires forall o :: o in l ==> o in objs
    ensures (forall o :: o in l ==> !HasOne(objs[o])) ==> TakeAll(objs, l) == objs
  {
  }

  lemma MutexWaits(s: Sys, o: Oid)
    requires SysInv(s) && IsMutex(s, o) && Runs(s.k) && s.objs[o].nest > 0 && s.objs[o].owner != Task(s.k.cur)
    ensures s.objs[o].owner.Task? && s.objs[o].owner.t in s.k.tasks ==> TcbOk(s.k.tasks[s.objs[o].owner.t])
    ensures PendInv(s.k.tasks, s.k.pend)
    ensures var k' := Boost(s.k, s.objs[o].owner, s.k.tasks[s.k.cur].prio);
      && k'.cur == s.k.cur && Runs(k') && PendArgs(k', OnMutex, [o])
      && TcbOk(k'.tasks[k'.cur]) && PendInv(k'.tasks, k'.pend)
  {
    ObjectRuns.BoostKeeps(s, s.objs[o].owner, s.k.tasks[s.k.cur].prio);
    ObjectRuns.BoostedRuns(s.k, s.objs[o].owner, s.k.tasks[s.k.cur].prio, o);
    hide Boost;
  }

  lemma MutexGives(s: Sys, o: Oid)
    requires SysInv(s) && IsMutex(s, o) && s.k.cur in s.k.tasks && s.k.tasks[s.k.cur].st == RDY && s.k.pend[o] != []
    ensures var k' := Unboost(s.k, s.objs[o].orig); var t := s.k.pend[o][0];
      && k'.pend == s.k.pend && t in s.k.tasks
      && t in k'.tasks && TcbOk(k'.tasks[t]) && PendInv(k'.tasks, k'.pend)
  {
    ObjectRuns.UnboostKeeps(s, s.objs[o].orig);
    ObjectFlow.MostUrgent(s.k, o);
    UnboostedPend(s.k, s.objs[o].orig);
    hide Unboost, Waits;
  }

  lemma UnboostedPend(k: K, prio: Prio)
    requires k.cur in k.tasks && k.tasks[k.cur].st == RDY
    ensures Unboost(k, prio).pend == k.pend && Unboost(k, prio).tasks.Keys == k.tasks.Keys
  {
  }
}
