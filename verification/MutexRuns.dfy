// Priority inheritance over whole runs (os_mutex.c).

module MutexRuns {
  import opened Ticks
  import opened Lists
  import opened Tasks
  import opened FlagBits
  import opened KernelState
  import opened KernelSteps
  import opened KernelReleases
  import opened ObjectSpec
  import opened ObjectInv
  import opened ObjectSteps
  import opened ObjectRuns
  import TaskChanges
  import KernelRuns
  import ObjectFlow
  import Wheel = TickWheelSpec

  // ---------------------------------------------------------------- the invariant

  // The owner is at least as urgent as every waiter and as it was when it got the mutex, and
  // does not itself wait for a mutex.
  ghost predicate Lends(k: K, o: Oid, b: Obj) {
    b.Mutex? && b.owner.Task? ==>
      && o in k.pend && b.owner.t in k.tasks
      && k.tasks[b.owner.t].prio <= b.orig && k.tasks[b.owner.t].pendOn != OnMutex
      && (forall t :: t in k.pend[o] ==>
            t in k.tasks && k.tasks[t].pendOn == OnMutex && k.tasks[b.owner.t].prio <= k.tasks[t].prio)
  }

  predicate Owns(s: Sys, t: Tid, o: Oid) {
    o in s.objs && s.objs[o].Mutex? && s.objs[o].owner == Task(t)
  }

  ghost predicate OneMutexEach(s: Sys) {
    forall o, q, t :: Owns(s, t, o) && Owns(s, t, q) ==> o == q
  }

  ghost predicate PriInv(s: Sys) {
    OneMutexEach(s) && forall o :: o in s.objs ==> Lends(s.k, o, s.objs[o])
  }

  // What is asked of the application: whoever takes a mutex runs and holds no other one;
  // owners are not deleted, and neither owners nor waiters are given another priority.
  ghost predicate Disciplined(s: Sys, op: Op) {
    match op
    case OpMutexPend(o, _, _) =>
      s.k.cur in s.k.tasks && s.k.tasks[s.k.cur].st == RDY && forall q :: Owns(s, s.k.cur, q) ==> q == o
    case OpMutexPost(o) => s.k.cur in s.k.tasks && s.k.tasks[s.k.cur].st == RDY
    case OpDeleteTask(t) => forall q :: !Owns(s, t, q)
    case OpKernel(op) =>
      op.OpChangePrio? ==> op.t in s.k.tasks && s.k.tasks[op.t].pendOn != OnMutex && forall q :: !Owns(s, op.t, q)
    case _ => true
  }

  // ---------------------------------------------------------------- steps that lend nothing

  ghost predicate Steady(k: K, k': K) {
    forall t :: t in k.tasks && t in k'.tasks ==>
      k'.tasks[t].prio == k.tasks[t].prio && (k'.tasks[t].pendOn == OnMutex ==> k.tasks[t].pendOn == OnMutex)
  }

  lemma SteadyLends(k: K, k': K, o: Oid, b: Obj)
    requires Lends(k, o, b) && Shrinks(k, k') && Steady(k, k')
    ensures Lends(k', o, b)
  {
    if b.Mutex? && b.owner.Task? {
      forall t | t in k'.pend[o]
        ensures StillWaits(k, k', o, t)
      {
      }
    }
  }

  lemma SteadyKernel(s: Sys, k': K)
    requires PriInv(s) && Shrinks(s.k, k') && Steady(s.k, k')
    ensures PriInv(s.(k := k'))
  {
    hide Lends, Shrinks, Steady;
    forall o | o in s.objs
      ensures Lends(k', o, s.objs[o])
    {
      SteadyLends(s.k, k', o, s.objs[o]);
    }
    assert forall o, t :: Owns(s.(k := k'), t, o) ==> Owns(s, t, o);
  }

  // Objects that nobody owns now may come, change and go.
  lemma OtherObjects(s: Sys, objs: map<Oid, Obj>)
    requires PriInv(s)
    requires forall o :: o in objs && objs[o].Mutex? && objs[o].owner.Task? ==>
      o in s.objs && s.objs[o].Mutex? && s.objs[o].owner == objs[o].owner && s.objs[o].orig == objs[o].orig
    ensures PriInv(s.(objs := objs))
  {
    var s' := s.(objs := objs);
    assert forall o, t :: Owns(s', t, o) ==> Owns(s, t, o);
    assert forall o :: o in s.objs ==> Lends(s.k, o, s.objs[o]);
  }

  lemma ReleasedSteady(k: K, k': K, gone: set<Tid>, f: Tcb -> Tcb)
    requires Released(k, k', gone, f)
    requires forall t :: t in gone && t in k.tasks ==>
      f(k.tasks[t]).prio == k.tasks[t].prio && f(k.tasks[t]).pendOn == OnNothing
    ensures Steady(k, k')
  {
  }

  // A task that waits for something other than a mutex.
  lemma BlockedLends(s: Sys, on: PendOn, objs: seq<Oid>, timeout: Tick)
    requires PriInv(s) && s.k.cur in s.k.tasks && on != OnMutex
    requires forall o :: o in objs ==> o in s.objs && !s.objs[o].Mutex?
    requires forall o :: o in s.k.pend ==> s.k.cur !in s.k.pend[o]
    ensures PriInv(s.(k := Pend(s.k, on, objs, timeout)))
  {
    var k' := Pend(s.k, on, objs, timeout);
    BlockedSteady(s.k, on, objs, timeout);
    hide Pend, Steady;
    forall o | o in s.objs
      ensures Lends(k', o, s.objs[o])
    {
      assert Lends(s.k, o, s.objs[o]);
      if s.objs[o].Mutex? && s.objs[o].owner.Task? {
        BlockedLists(s.k, on, objs, timeout, o);
        BlockedSame(s, on, objs, timeout, o);
      }
    }
    assert forall o, t :: Owns(s.(k := k'), t, o) ==> Owns(s, t, o);
  }

  lemma BlockedSteady(k: K, on: PendOn, objs: seq<Oid>, timeout: Tick)
    requires k.cur in k.tasks && on != OnMutex
    ensures Steady(k, Pend(k, on, objs, timeout))
  {
  }

  lemma BlockedSame(s: Sys, on: PendOn, objs: seq<Oid>, timeout: Tick, o: Oid)
    requires s.k.cur in s.k.tasks && on != OnMutex && o in s.objs && Lends(s.k, o, s.objs[o])
    requires s.objs[o].Mutex? && s.objs[o].owner.Task? && s.k.cur !in s.k.pend[o]
    requires Pend(s.k, on, objs, timeout).pend.Keys == s.k.pend.Keys
    requires Pend(s.k, on, objs, timeout).pend[o] == s.k.pend[o]
    ensures Lends(Pend(s.k, on, objs, timeout), o, s.objs[o])
  {
  }

  // ---------------------------------------------------------------- changing one task's priority

  // A task that owns no mutex but perhaps o, and does not wait for one.
  ghost predicate FreeToChange(s: Sys, w: Tid, o: Oid) {
    && w in s.k.tasks && s.k.tasks[w].pendOn != OnMutex
    && forall q :: Owns(s, w, q) ==> q == o
  }

  lemma ReprioLends(s: Sys, w: Tid, prio: Prio, place: Place, resort: bool, o: Oid, q: Oid)
    requires PendInv(s.k.tasks, s.k.pend) && PriInv(s) && FreeToChange(s, w, o) && q in s.objs && q != o
    ensures Lends(Reprio(s.k, w, prio, place, resort), q, s.objs[q])
  {
    var k' := Reprio(s.k, w, prio, place, resort);
    ReprioShrinks(s.k, w, prio, place, resort);
    hide PendInv;
    RepriosTasks(s.k, w, prio, place, resort);
    assert Lends(s.k, q, s.objs[q]);
    assert s.objs[q].Mutex? && s.objs[q].owner.Task? ==> Owns(s, s.objs[q].owner.t, q);
    hide Reprio, PriInv, Owns;
    LendsAfter(s.k, k', w, q, s.objs[q]);
  }

  lemma LendsAfter(k: K, k': K, w: Tid, q: Oid, b: Obj)
    requires Lends(k, q, b) && Shrinks(k, k') && w in k.tasks && k.tasks[w].pendOn != OnMutex
    requires forall t :: t in k.tasks && t != w ==> k'.tasks[t] == k.tasks[t]
    requires b.Mutex? && b.owner.Task? ==> b.owner.t != w
    ensures Lends(k', q, b)
  {
    if b.Mutex? && b.owner.Task? {
      forall t | t in k'.pend[q]
        ensures StillWaits(k, k', q, t)
      {
      }
    }
  }

  lemma ReprioKeepsOthers(s: Sys, w: Tid, prio: Prio, place: Place, resort: bool, o: Oid)
    requires PendInv(s.k.tasks, s.k.pend) && PriInv(s) && FreeToChange(s, w, o) && o !in s.objs
    ensures PriInv(s.(k := Reprio(s.k, w, prio, place, resort)))
  {
    var s' := s.(k := Reprio(s.k, w, prio, place, resort));
    hide PendInv, Lends, Reprio;
    forall q | q in s.objs
      ensures Lends(s'.k, q, s.objs[q])
    {
      ReprioLends(s, w, prio, place, resort, o, q);
    }
    assert forall q, t :: Owns(s', t, q) ==> Owns(s, t, q);
  }

  // ---------------------------------------------------------------- taking a mutex

  lemma TakeFree(s: Sys, o: Oid)
    requires PriInv(s) && IsMutex(s, o) && s.k.pend[o] == []
    requires s.k.cur in s.k.tasks && s.k.tasks[s.k.cur].pendOn == OnNothing
      && forall q :: Owns(s, s.k.cur, q) ==> q == o
    ensures PriInv(s.(objs := s.objs[o := Mutex(Task(s.k.cur), s.k.tasks[s.k.cur].prio, 1)]))
  {
    var s' := s.(objs := s.objs[o := Mutex(Task(s.k.cur), s.k.tasks[s.k.cur].prio, 1)]);
    forall q | q in s'.objs
      ensures Lends(s.k, q, s'.objs[q])
    {
      assert q != o ==> Lends(s.k, q, s.objs[q]);
    }
    hide Lends;
    assert forall q, t :: q != o && Owns(s', t, q) ==> Owns(s, t, q);
    assert forall t :: Owns(s', t, o) ==> t == s.k.cur;
  }

  // The owner after the boost is as urgent as the caller and no less urgent than before.
  lemma BoostLends(s: Sys, o: Oid, q: Oid)
    requires PendInv(s.k.tasks, s.k.pend) && PriInv(s) && IsMutex(s, o) && s.objs[o].owner.Task?
    requires s.k.cur in s.k.tasks && q in s.objs
    ensures var k' := Boost(s.k, s.objs[o].owner, s.k.tasks[s.k.cur].prio);
      && Lends(k', q, s.objs[q])
      && k'.tasks[s.objs[o].owner.t].prio <= s.k.tasks[s.k.cur].prio
      && k'.tasks[s.k.cur].prio <= s.k.tasks[s.k.cur].prio
  {
    var w, prio := s.objs[o].owner.t, s.k.tasks[s.k.cur].prio;
    assert Lends(s.k, o, s.objs[o]) && Lends(s.k, q, s.objs[q]);
    assert Owns(s, w, o);
    assert FreeToChange(s, w, o);
    hide PendInv, PriInv;
    if s.k.tasks[w].prio > prio {
      if q != o {
        hide Lends, Reprio;
        ReprioLends(s, w, prio, AtHead, true, o, q);
        RepriosTasks(s.k, w, prio, AtHead, true);
      } else {
        BoostOwn(s, w, prio, o);
      }
    }
  }

  lemma RepriosTasks(k: K, w: Tid, prio: Prio, place: Place, resort: bool)
    requires w in k.tasks
    ensures Reprio(k, w, prio, place, resort).tasks == k.tasks[w := k.tasks[w].(prio := prio)]
  {
  }

  lemma BoostOwn(s: Sys, w: Tid, prio: Prio, o: Oid)
    requires PendInv(s.k.tasks, s.k.pend) && IsMutex(s, o) && s.objs[o].owner == Task(w) && Lends(s.k, o, s.objs[o])
    requires prio < s.k.tasks[w].prio
    ensures var k' := Reprio(s.k, w, prio, AtHead, true);
      && Lends(k', o, s.objs[o]) && k'.tasks == s.k.tasks[w := s.k.tasks[w].(prio := prio)]
  {
    var k' := Reprio(s.k, w, prio, AtHead, true);
    ReprioShrinks(s.k, w, prio, AtHead, true);
    RepriosTasks(s.k, w, prio, AtHead, true);
    hide PendInv, Reprio;
    forall t | t in k'.pend[o]
      ensures StillWaits(s.k, k', o, t)
    {
    }
  }

  // A new waiter on o, when the owner is already as urgent.
  lemma JoinLends(k: K, o: Oid, timeout: Tick, q: Oid, b: Obj)
    requires q in k.pend && Lends(k, q, b) && k.cur in k.tasks && k.cur !in k.pend[q]
    requires b.Mutex? && b.owner.Task? ==> b.owner.t != k.cur
    requires q == o && b.Mutex? && b.owner.Task? && b.owner.t in k.tasks ==>
      k.tasks[b.owner.t].prio <= k.tasks[k.cur].prio
    ensures Lends(Pend(k, OnMutex, [o], timeout), q, b)
  {
    BlockedLists(k, OnMutex, [o], timeout, q);
    var k' := Pend(k, OnMutex, [o], timeout);
    assert k'.tasks[k.cur].pendOn == OnMutex && k'.tasks[k.cur].prio == k.tasks[k.cur].prio;
    assert forall t :: t in k.tasks && t != k.cur ==> k'.tasks[t] == k.tasks[t];
    hide Pend;
  }

  lemma JoinQueue(s: Sys, o: Oid, timeout: Tick)
    requires SysInv(s) && PriInv(s) && IsMutex(s, o) && Runs(s.k)
    requires s.objs[o].owner.Task? && (forall q :: !Owns(s, s.k.cur, q))
    ensures PriInv(s.(k := Pend(Boost(s.k, s.objs[o].owner, s.k.tasks[s.k.cur].prio), OnMutex, [o], timeout)))
  {
    var prio := s.k.tasks[s.k.cur].prio;
    var k1 := Boost(s.k, s.objs[o].owner, prio);
    assert !Owns(s, s.k.cur, o) && Inv(s.k) && PendInv(s.k.tasks, s.k.pend);
    hide SysInv, Inv, PendInv, Lends, Boost, Pend;
    BoostKeeps(s, s.objs[o].owner, prio);
    BoostCur(s.k, s.objs[o].owner, prio);
    assert Inv(k1) by { KernelOk(s.(k := k1)); }
    CurNotListed(k1);
    forall q | q in s.objs
      ensures Lends(Pend(k1, OnMutex, [o], timeout), q, s.objs[q])
    {
      BoostLends(s, o, q);
      assert !Owns(s, s.k.cur, q);
      InPend(s.(k := k1), q);
      JoinLends(k1, o, timeout, q, s.objs[q]);
    }
    SameOwners(s, Pend(k1, OnMutex, [o], timeout));
  }

  lemma KernelOk(s: Sys)
    requires SysInv(s)
    ensures Inv(s.k)
  {
  }

  lemma SameOwners(s: Sys, k': K)
    requires OneMutexEach(s) && forall o :: o in s.objs ==> Lends(k', o, s.objs[o])
    ensures PriInv(s.(k := k'))
  {
    hide Lends;
    assert forall o, t :: Owns(s.(k := k'), t, o) ==> Owns(s, t, o);
  }

  lemma InPend(s: Sys, q: Oid)
    requires SysInv(s) && q in s.objs
    ensures q in s.k.pend
  {
    assert ObjOk(s.k, q, s.objs[q]);
  }

  lemma BoostCur(k: K, owner: Owner, prio: Prio)
    requires owner != Task(k.cur) && k.cur in k.tasks
    ensures Boost(k, owner, prio).tasks[k.cur] == k.tasks[k.cur]
  {
  }

  lemma CurNotListed(k: K)
    requires Inv(k) && k.cur in k.tasks && k.tasks[k.cur].st == RDY
    ensures forall q :: q in k.pend ==> k.cur !in k.pend[q]
  {
    assert TcbOk(k.tasks[k.cur]);
    NotLinked(k.tasks, k.pend, k.cur);
  }

  lemma ObjAndCaller(s: Sys, o: Oid)
    requires SysInv(s) && o in s.objs && s.k.cur in s.k.tasks
    ensures ObjOk(s.k, o, s.objs[o]) && TcbOk(s.k.tasks[s.k.cur])
  {
  }

  lemma MutexPendLends(s: Sys, o: Oid, block: bool, timeout: Tick)
    requires SysInv(s) && PriInv(s) && Allowed(s, OpMutexPend(o, block, timeout))
      && Disciplined(s, OpMutexPend(o, block, timeout))
    ensures PriInv(MutexPend(s, o, block, timeout))
  {
    hide SysInv, Lends, Boost, Pend;
    var b := s.objs[o];
    ObjAndCaller(s, o);
    if b.nest == 0 {
      TakeFree(s, o);
    } else if b.owner == Task(s.k.cur) {
      OtherObjects(s, MutexPend(s, o, block, timeout).objs);
    } else if CanBlock(s.k, block) {
      assert !Owns(s, s.k.cur, o);
      JoinQueue(s, o, timeout);
    }
  }

  // ---------------------------------------------------------------- giving it back

  lemma UnboostIs(k: K, prio: Prio)
    requires k.cur in k.tasks && k.tasks[k.cur].st == RDY
    ensures var k' := Unboost(k, prio);
      && k'.tasks == k.tasks[k.cur := k.tasks[k.cur].(prio := prio)] && k'.pend == k.pend && k'.cur == k.cur
  {
    assert k.tasks[k.cur].prio == prio ==> k.tasks[k.cur := k.tasks[k.cur].(prio := prio)] == k.tasks;
  }

  // The last of the nested posts of a running owner.
  predicate FinalPost(s: Sys, o: Oid) {
    && IsMutex(s, o) && s.k.cur in s.k.tasks && s.k.tasks[s.k.cur].st == RDY
    && s.objs[o].owner == Task(s.k.cur) && s.objs[o].nest == 1
  }

  // Who owns the mutex after a final post: the first of the most urgent waiters.
  lemma HandOverSteps(s: Sys, o: Oid)
    requires SysInv(s) && FinalPost(s, o) && s.k.pend[o] != []
    ensures var s' := MutexPost(s, o); var t := s.k.pend[o][0];
      && t in s.k.tasks && t != s.k.cur && Waits(s.k.tasks, t, o)
      && (forall x :: x in s.k.pend[o] ==> x in s.k.tasks && s.k.tasks[t].prio <= s.k.tasks[x].prio)
      && s'.objs == s.objs[o := Mutex(Task(t), s.k.tasks[t].prio, 1)]
      && s'.k == Post(Unboost(s.k, s.objs[o].orig), t, o, NULL_MSG)
      && o in s'.k.pend && s'.k.pend[o] == s.k.pend[o][1..]
      && s'.k.tasks == s.k.tasks[s.k.cur := s.k.tasks[s.k.cur].(prio := s.objs[o].orig)][t := Posted(s.k.tasks[t], o,
        NULL_MSG)]
  {
    assert Inv(s.k) && TcbOk(s.k.tasks[s.k.cur]);
    MostUrgentWaiter(s.k, o);
    CurNotListed(s.k);
    UnboostIs(s.k, s.objs[o].orig);
    assert s.k.pend[o][0] in s.k.pend[o];
    hide SysInv, Inv, Unboost;
  }

  lemma MostUrgentWaiter(k: K, o: Oid)
    requires Inv(k) && o in k.pend && k.pend[o] != []
    ensures var t := k.pend[o][0];
      && Waits(k.tasks, t, o) && k.tasks[t].st.pend
      && (forall x :: x in k.pend[o] ==> x in k.tasks && k.tasks[t].prio <= k.tasks[x].prio)
      && Without(k.pend[o], t) == k.pend[o][1..]
  {
    ObjectFlow.MostUrgent(k, o);
  }

  ghost predicate HandedOver(s: Sys, s': Sys, o: Oid)
    requires IsMutex(s, o) && s.k.pend[o] != []
  {
    var t := s.k.pend[o][0];
    && s.k.cur in s.k.tasks && s.k.cur in s'.k.tasks && t in s.k.tasks && t in s'.k.tasks
    && s'.k.tasks[s.k.cur] == s.k.tasks[s.k.cur].(prio := s.objs[o].orig)
    && s'.k.tasks[t].status == PendOk && s'.k.tasks[t].pendOn == OnNothing
    && (forall x :: x in s.k.pend[o] ==> x in s.k.tasks && s.k.tasks[t].prio <= s.k.tasks[x].prio)
    && (forall x :: x in s.k.tasks && x != t && x != s.k.cur ==> x in s'.k.tasks && s'.k.tasks[x] == s.k.tasks[x])
    && s'.objs == s.objs[o := Mutex(Task(t), s.k.tasks[t].prio, 1)]
    && o in s'.k.pend && s'.k.pend[o] == s.k.pend[o][1..]
  }

  // A final post with waiters gives the old owner back the priority it had when it got the
  // mutex, and makes the first of the most urgent waiters the owner.
  lemma PostHandsOver(s: Sys, o: Oid)
    requires SysInv(s) && FinalPost(s, o) && s.k.pend[o] != []
    ensures HandedOver(s, MutexPost(s, o), o)
  {
    HandOverSteps(s, o);
    hide SysInv, MutexPost, Post, Unboost, Waits;
    HandOverMeans(s, MutexPost(s, o), o, s.k.pend[o][0]);
  }

  lemma HandOverMeans(s: Sys, s': Sys, o: Oid, t: Tid)
    requires IsMutex(s, o) && s.k.pend[o] != [] && t == s.k.pend[o][0] && t in s.k.tasks && s.k.cur in s.k.tasks
      && t != s.k.cur
    requires forall x :: x in s.k.pend[o] ==> x in s.k.tasks && s.k.tasks[t].prio <= s.k.tasks[x].prio
    requires s'.objs == s.objs[o := Mutex(Task(t), s.k.tasks[t].prio, 1)]
    requires o in s'.k.pend && s'.k.pend[o] == s.k.pend[o][1..]
    requires s'.k.tasks == s.k.tasks[s.k.cur := s.k.tasks[s.k.cur].(prio := s.objs[o].orig)][t := Posted(s.k.tasks[t],
      o, NULL_MSG)]
    ensures HandedOver(s, s', o)
  {
  }

  // The releasing owner gets its own priority back exactly when somebody waits or it was
  // never boosted: without waiters a boost outlives the mutex.
  lemma PostRestores(s: Sys, o: Oid)
    requires SysInv(s) && FinalPost(s, o)
    ensures MutexPost(s, o).k.tasks[s.k.cur].prio == s.objs[o].orig <==>
      s.k.pend[o] != [] || s.k.tasks[s.k.cur].prio == s.objs[o].orig
  {
    if s.k.pend[o] != [] {
      HandOverSteps(s, o);
      hide SysInv, MutexPost;
    }
  }

  // The same for a deletion: with OS_OPT_DEL_NO_PEND the owner keeps a boost.
  lemma DelRestores(s: Sys, o: Oid, always: bool, w: Tid)
    requires IsMutex(s, o) && s.objs[o].owner == Task(w) && w in s.k.tasks
    ensures var k' := MutexDel(s, o, always).k;
      w in k'.tasks && (k'.tasks[w].prio == s.objs[o].orig <==> always || s.k.tasks[w].prio == s.objs[o].orig)
  {
    hide Reprio, CancelAll;
    var orig := s.objs[o].orig;
    TaskChanges.QuietCancelAll(s.k, s.k.pend[o], o, PendDel);
    RepriosTasks(s.k, w, orig, AtTail, true);
    ReprioKeys(s.k, w, orig, AtTail);
    var k1 := Reprio(s.k, w, orig, AtTail, true);
    TaskChanges.QuietCancelAll(k1, k1.pend[o], o, PendDel);
  }

  lemma PostKeepsOther(s: Sys, o: Oid, q: Oid)
    requires SysInv(s) && PriInv(s) && FinalPost(s, o) && s.k.pend[o] != []
    requires q in s.objs && q != o
    ensures Lends(MutexPost(s, o).k, q, s.objs[q])
  {
    var t, k1 := s.k.pend[o][0], Unboost(s.k, s.objs[o].orig);
    HandOverSteps(s, o);
    assert TcbOk(s.k.tasks[s.k.cur]) && Lends(s.k, q, s.objs[q]) && Owns(s, s.k.cur, o);
    assert s.objs[q].Mutex? && s.objs[q].owner.Task? ==> Owns(s, s.objs[q].owner.t, q);
    UnboostIs(s.k, s.objs[o].orig);
    UnboostKeeps(s, s.objs[o].orig);
    assert Inv(k1) by { KernelOk(s.(k := k1)); }
    hide SysInv, PriInv, Unboost, Post, MutexPost, Inv;
    Unboosted(s.k, k1, q, s.objs[q]);
    PostShrinks(k1, t, o, NULL_MSG);
    PostSteady(k1, t, o, NULL_MSG);
    SteadyLends(k1, Post(k1, t, o, NULL_MSG), q, s.objs[q]);
  }

  lemma Unboosted(k: K, k1: K, q: Oid, b: Obj)
    requires Lends(k, q, b) && k.cur in k.tasks && k.tasks[k.cur].pendOn == OnNothing
    requires k.cur in k1.tasks && k1.tasks == k.tasks[k.cur := k1.tasks[k.cur]] && k1.pend == k.pend
    requires b.Mutex? && b.owner.Task? ==> b.owner.t != k.cur
    ensures Lends(k1, q, b)
  {
  }

  lemma PostSteady(k: K, t: Tid, o: Oid, msg: Msg)
    requires t in k.tasks
    ensures Steady(k, Post(k, t, o, msg))
  {
  }

  lemma HandOverLends(s: Sys, o: Oid)
    requires SysInv(s) && PriInv(s) && FinalPost(s, o) && s.k.pend[o] != []
    ensures PriInv(MutexPost(s, o))
  {
    var s', t := MutexPost(s, o), s.k.pend[o][0];
    HandOverSteps(s, o);
    assert Lends(s.k, o, s.objs[o]) && t in s.k.pend[o];
    assert forall q :: Owns(s, t, q) ==> Lends(s.k, q, s.objs[q]);
    NewOwnerLends(s.k, s'.k, o, s'.objs[o], t);
    hide SysInv, MutexPost, Post, Unboost;
    forall q | q in s.objs && q != o
      ensures Lends(s'.k, q, s.objs[q])
    {
      PostKeepsOther(s, o, q);
    }
    NewOwner(s, s', o, t);
  }

  lemma NewOwnerLends(k: K, k': K, o: Oid, b: Obj, t: Tid)
    requires Inv(k) && o in k.pend && k.pend[o] != [] && t == k.pend[o][0] && t in k.tasks
      && b == Mutex(Task(t), k.tasks[t].prio, 1)
    requires k.cur in k.tasks && k.tasks[k.cur].st == RDY
    requires forall x :: x in k.pend[o] ==>
      x in k.tasks && k.tasks[x].pendOn == OnMutex && k.tasks[t].prio <= k.tasks[x].prio
    requires o in k'.pend && k'.pend[o] == k.pend[o][1..] && k.cur in k'.tasks
    requires k'.tasks == k.tasks[k.cur := k'.tasks[k.cur]][t := Posted(k.tasks[t], o, NULL_MSG)]
    ensures Lends(k', o, b)
  {
    hide RdyInv, WheelInv, TcbOk, Mark;
    CurNotListed(k);
    assert Distinct(k.pend[o]);
    assert forall x :: x in k'.pend[o] ==> x in k.pend[o] && x != t;
  }

  lemma NewOwner(s: Sys, s': Sys, o: Oid, t: Tid)
    requires PriInv(s) && o in s.objs && o in s'.objs && s'.objs == s.objs[o := s'.objs[o]] && s'.objs[o].Mutex?
    requires s'.objs[o].owner == Task(t) && t in s.k.tasks && s.k.tasks[t].pendOn == OnMutex
    requires Lends(s'.k, o, s'.objs[o]) && forall q :: q in s.objs && q != o ==> Lends(s'.k, q, s.objs[q])
    ensures PriInv(s')
  {
    forall q | q in s.objs
      ensures !Owns(s, t, q)
    {
      assert Lends(s.k, q, s.objs[q]);
    }
    hide Lends;
    assert forall q, x :: q != o && Owns(s', x, q) ==> Owns(s, x, q);
    assert forall x :: Owns(s', x, o) ==> x == t;
  }

  lemma MutexPostLends(s: Sys, o: Oid)
    requires SysInv(s) && PriInv(s) && IsMutex(s, o) && s.k.cur in s.k.tasks && s.k.tasks[s.k.cur].st == RDY
    ensures PriInv(MutexPost(s, o))
  {
    hide SysInv, PriInv, Lends, Post, Unboost;
    if s.objs[o].owner == Task(s.k.cur) && s.objs[o].nest == 1 && s.k.pend[o] != [] {
      HandOverLends(s, o);
    } else {
      WaitersExist(s, o);
      assert s.k.pend[o] != [] ==> s.k.pend[o][0] in s.k.pend[o];
      OtherObjects(s, MutexPost(s, o).objs);
    }
  }

  // ---------------------------------------------------------------- everything else

  lemma CancelSteady(k: K, o: Oid, all: bool, status: PendStatus)
    requires Inv(k) && o in k.pend
    ensures var k' := CancelAll(k, Chosen(k.pend[o], all), o, status);
      Inv(k') && Shrinks(k, k') && Steady(k, k')
        && Released(k, k', Elements(Chosen(k.pend[o], all)), CancelledBy(o, status))
  {
    var l, f := Chosen(k.pend[o], all), CancelledBy(o, status);
    assert forall c: Tcb :: f(c).prio == c.prio && f(c).pendOn == OnNothing;
    hide *;
    CancelAllExact(k, o, all, status);
    ReleasedSteady(k, CancelAll(k, l, o, status), Elements(l), CancelledBy(o, status));
  }

  lemma PostAllSteady(k: K, o: Oid, all: bool, msg: Msg)
    requires Inv(k) && o in k.pend
    ensures var k' := PostAll(k, Chosen(k.pend[o], all), o, msg); Shrinks(k, k') && Steady(k, k')
  {
    var l, f := Chosen(k.pend[o], all), PostedBy(o, msg);
    assert forall c: Tcb :: f(c).prio == c.prio && f(c).pendOn == OnNothing;
    hide *;
    PostAllExact(k, o, all, msg);
    ReleasedSteady(k, PostAll(k, l, o, msg), Elements(l), PostedBy(o, msg));
  }

  lemma SemPostLends(s: Sys, o: Oid, all: bool)
    requires SysInv(s) && PriInv(s) && IsSem(s, o)
    ensures PriInv(SemPost(s, o, all))
  {
    hide PriInv, PostAll, Shrinks, Steady, Inv;
    if s.k.pend[o] != [] {
      PostAllSteady(s.k, o, all, NULL_MSG);
      SteadyKernel(s, SemPost(s, o, all).k);
    } else {
      OtherObjects(s, SemPost(s, o, all).objs);
    }
  }

  lemma QPostLends(s: Sys, o: Oid, msg: Msg, lifo: bool, all: bool, poolEmpty: bool)
    requires SysInv(s) && PriInv(s) && IsQueue(s, o)
    ensures PriInv(QPost(s, o, msg, lifo, all, poolEmpty))
  {
    hide PriInv, PostAll, Shrinks, Steady, Inv;
    if s.k.pend[o] != [] {
      PostAllSteady(s.k, o, all, msg);
      SteadyKernel(s, QPost(s, o, msg, lifo, all, poolEmpty).k);
    } else {
      OtherObjects(s, QPost(s, o, msg, lifo, all, poolEmpty).objs);
    }
  }

  lemma AbortLends(s: Sys, o: Oid, all: bool)
    requires SysInv(s) && PriInv(s) && o in s.k.pend
    ensures PriInv(PendAbortObj(s, o, all))
  {
    hide PriInv, CancelAll, Shrinks, Steady, Inv;
    CancelSteady(s.k, o, all, PendAbort);
    SteadyKernel(s, PendAbortObj(s, o, all).k);
  }

  lemma DelLends(s: Sys, o: Oid, always: bool)
    requires Inv(s.k) && PriInv(s) && o in s.k.pend
    ensures PriInv(DelObj(s, o, always))
  {
    hide PriInv, CancelAll, Shrinks, Steady, Inv;
    if s.k.pend[o] == [] || always {
      var k' := CancelAll(s.k, s.k.pend[o], o, PendDel);
      assert Chosen(s.k.pend[o], true) == s.k.pend[o];
      CancelSteady(s.k, o, true, PendDel);
      SteadyKernel(s, k');
      OtherObjects(s.(k := k'), s.objs - {o});
    }
  }

  // A mutex out of the way, its owner may get any priority: the lists of the other mutexes
  // cannot tell.
  lemma ForgottenMutex(s: Sys, o: Oid, w: Tid, prio: Prio)
    requires PendInv(s.k.tasks, s.k.pend) && PriInv(s) && Owns(s, w, o)
    ensures w in s.k.tasks && PriInv(s.(k := Reprio(s.k, w, prio, AtTail, true), objs := s.objs - {o}))
  {
    var s0 := s.(objs := s.objs - {o});
    assert Lends(s.k, o, s.objs[o]);
    assert forall q :: Owns(s0, w, q) ==> Owns(s, w, q);
    assert FreeToChange(s0, w, o);
    OtherObjects(s, s0.objs);
    hide *;
    ReprioKeepsOthers(s0, w, prio, AtTail, true, o);
  }

  lemma MutexDelLends(s: Sys, o: Oid, always: bool)
    requires SysInv(s) && PriInv(s) && IsMutex(s, o)
    ensures PriInv(MutexDel(s, o, always))
  {
    hide SysInv, PriInv, Inv, PendInv;
    SysParts(s);
    var m := s.objs[o];
    if always && m.owner.Task? && m.owner.t in s.k.tasks && s.k.tasks[m.owner.t].prio != m.orig {
      var w := m.owner.t;
      var k' := Reprio(s.k, w, m.orig, AtTail, true);
      ForgottenMutex(s, o, w, m.orig);
      ReprioKeys(s.k, w, m.orig, AtTail);
      hide Reprio, CancelAll;
      ReprioKeeps(s.k, w, m.orig, AtTail, true);
      DelLends(s.(k := k', objs := s.objs - {o}), o, always);
      assert s.objs - {o} == (s.objs - {o}) - {o};
    } else {
      hide CancelAll;
      DelLends(s, o, always);
    }
  }

  lemma FlagPostLends(s: Sys, o: Oid, flags: bv32, set_: bool)
    requires SysInv(s) && PriInv(s) && IsFlags(s, o)
    requires var bits := FlagPost(s, o, flags, set_).objs[o].bits; NoneMishandled(s.k, s.k.pend[o], bits)
    ensures PriInv(FlagPost(s, o, flags, set_))
  {
    hide SysInv, PriInv, FlagWake, FlagPost, Inv, Shrinks, Steady, NoneMishandled, PendInv, TcbOk;
    FlagPostIs(s, o, flags, set_);
    var bits := FlagPost(s, o, flags, set_).objs[o].bits;
    var k' := FlagWake(s.k, s.k.pend[o], bits);
    SysParts(s);
    FlagWakeSteady(s.k, o, bits);
    SteadyKernel(s, k');
    OtherObjects(s.(k := k'), s.objs[o := Flags(bits)]);
  }

  lemma FlagWakeSteady(k: K, o: Oid, bits: bv32)
    requires Inv(k) && o in k.pend && NoneMishandled(k, k.pend[o], bits)
    ensures var k' := FlagWake(k, k.pend[o], bits); Shrinks(k, k') && Steady(k, k')
  {
    var f := FlagFreed(bits);
    assert forall c: Tcb :: f(c).prio == c.prio && f(c).pendOn == OnNothing;
    hide *;
    FlagWakeExact(k, o, bits);
    ReleasedSteady(k, FlagWake(k, k.pend[o], bits), Elements(Hits(k, k.pend[o], bits)), f);
  }

  lemma WaitLends(s: Sys, on: PendOn, objs: seq<Oid>, timeout: Tick)
    requires SysInv(s) && PriInv(s) && Runs(s.k) && on != OnMutex
    requires forall o :: o in objs ==> o in s.objs && !s.objs[o].Mutex?
    ensures PriInv(s.(k := Pend(s.k, on, objs, timeout)))
  {
    hide PriInv, Inv, Pend, ObjOk, InboxOk;
    assert Inv(s.k);
    CurNotListed(s.k);
    BlockedLends(s, on, objs, timeout);
  }

  lemma FlagPendLends(s: Sys, o: Oid, flags: bv32, mode: FlagMode, consume: bool, block: bool, timeout: Tick)
    requires SysInv(s) && PriInv(s) && IsFlags(s, o) && Caller(s, block) && s.k.tasks[s.k.cur].st == RDY
    ensures PriInv(FlagPend(s, o, flags, mode, consume, block, timeout))
  {
    hide SysInv, PriInv, Inv, PendInv, RdyBits, Satisfied, Consumed, Pend;
    SysParts(s);
    if Satisfied(s.objs[o].bits, flags, mode) {
      FlagNowLends(s, FlagPend(s, o, flags, mode, consume, block, timeout).objs, RdyBits(s.objs[o].bits, flags, mode));
    } else if CanBlock(s.k, block) {
      FlagBlocksLends(s, o, flags, mode, timeout);
    }
  }

  lemma FlagNowLends(s: Sys, objs: map<Oid, Obj>, rdy: bv32)
    requires Inv(s.k) && PriInv(s) && s.k.cur in s.k.tasks && !s.k.tasks[s.k.cur].linked
    requires forall o :: o in objs && objs[o].Mutex? ==> o in s.objs && s.objs[o] == objs[o]
    ensures PriInv(s.(k := s.k.(tasks := s.k.tasks[s.k.cur := s.k.tasks[s.k.cur].(flagsRdy := rdy)]), objs := objs))
  {
    hide Inv, PriInv, Shrinks;
    var c := s.k.tasks[s.k.cur].(flagsRdy := rdy);
    var k' := s.k.(tasks := s.k.tasks[s.k.cur := c]);
    Annotated(s.k, s.k.cur, c);
    SteadyKernel(s, k');
    OtherObjects(s.(k := k'), objs);
  }

  lemma FlagBlocksLends(s: Sys, o: Oid, flags: bv32, mode: FlagMode, timeout: Tick)
    requires SysInv(s) && PriInv(s) && IsFlags(s, o) && Runs(s.k) && !s.k.tasks[s.k.cur].linked
    ensures PriInv(s.(k := Pend(WithFlags(s.k, flags, mode), OnFlag, [o], timeout)))
  {
    hide SysInv, PriInv, Pend;
    FlaggedLends(s, flags, mode);
    WaitLends(s.(k := WithFlags(s.k, flags, mode)), OnFlag, [o], timeout);
  }

  lemma FlagsSteady(k: K, flags: bv32, mode: FlagMode)
    requires k.cur in k.tasks
    ensures Steady(k, WithFlags(k, flags, mode))
  {
  }

  lemma FlaggedLends(s: Sys, flags: bv32, mode: FlagMode)
    requires SysInv(s) && PriInv(s) && s.k.cur in s.k.tasks && !s.k.tasks[s.k.cur].linked
    ensures var s' := s.(k := WithFlags(s.k, flags, mode)); SysInv(s') && PriInv(s')
  {
    hide *;
    var c := s.k.tasks[s.k.cur].(flagsPend := flags, flagsMode := mode, flagsRdy := 0);
    var k' := WithFlags(s.k, flags, mode);
    FlagsSteady(s.k, flags, mode);
    SysParts(s);
    WithFlagsIs(s.k, c, flags, mode);
    Annotated(s.k, s.k.cur, c);
    ShrunkSys(s, k');
    SteadyKernel(s, k');
  }

  // ---------------------------------------------------------------- the kernel's own services

  lemma OneSteady(k: K, k': K, t: Tid)
    requires t in k.tasks && t in k'.tasks && k'.tasks == k.tasks[t := k'.tasks[t]]
    requires k'.tasks[t].prio == k.tasks[t].prio && (k'.tasks[t].pendOn == OnMutex ==> k.tasks[t].pendOn == OnMutex)
    ensures Steady(k, k')
  {
  }

  lemma QuietSteady(k: K, op: KernelRuns.Op)
    requires Inv(k) && KernelRuns.Allowed(k, op) && Quiet(op) && !op.OpChangePrio?
    ensures Steady(k, KernelRuns.Step(k, op))
  {
    hide Inv, PendInv, Steady, KernelRuns.Tick, Wheel.Remove, Wheel.Insert, RdyInsert, RdyRemove, Unpend, Enlist;
    match op
    case OpTick => TickSteady(k);
    case OpPend(_, _, _) => OneSteady(k, KernelRuns.Step(k, op), k.cur);
    case OpDly(_, _) => OneSteady(k, KernelRuns.Step(k, op), k.cur);
    case OpPost(t, _, _) => OneSteady(k, KernelRuns.Step(k, op), t);
    case OpCancel(t, _, _) => OneSteady(k, KernelRuns.Step(k, op), t);
    case OpFlagRdy(t, _) => OneSteady(k, KernelRuns.Step(k, op), t);
    case OpDlyResume(t) => OneSteady(k, KernelRuns.Step(k, op), t);
    case OpSuspend(t) => OneSteady(k, KernelRuns.Step(k, op), t);
    case OpResume(t) => OneSteady(k, KernelRuns.Step(k, op), t);
    case _ => SameTasksSteady(k, op);
  }

  lemma SameTasksSteady(k: K, op: KernelRuns.Op)
    requires KernelRuns.Allowed(k, op) && (op.OpRotate? || op.OpLock? || op.OpUnlock? || op.OpSched?)
    ensures Steady(k, KernelRuns.Step(k, op))
  {
  }

  lemma TickSteady(k: K)
    requires Inv(k)
    ensures Steady(k, KernelRuns.Tick(k))
  {
    assert forall t :: t in k.tasks ==> TcbOk(k.tasks[t]);
    assert forall c: Tcb :: TcbOk(c) ==> Expired(c).prio == c.prio && Expired(c).pendOn == OnNothing;
    KernelRuns.TickKeeps(k);
    hide Inv, TcbOk, Expired, Wheel.Sleepers, Wheel.Due, KernelRuns.Tick;
    ReleasedSteady(k, KernelRuns.Tick(k), Wheel.Due(Wheel.Sleepers(k.wheel)), Expired);
  }

  lemma KernelLends(s: Sys, op: KernelRuns.Op)
    requires SysInv(s) && PriInv(s) && KernelRuns.Allowed(s.k, op) && Quiet(op) && Disciplined(s, OpKernel(op))
    ensures PriInv(s.(k := KernelRuns.Step(s.k, op)))
  {
    hide SysInv, PriInv, Inv, PendInv, Reprio;
    SysParts(s);
    if op.OpChangePrio? {
      if op.prio < PRIO_MAX - 1 {
        ChangeLends(s, op.t, op.prio, if op.self then AtHead else AtTail, s.k.tasks[op.t].pendOn != OnFlag);
      }
    } else {
      hide *;
      KernelLendsSteadily(s, op);
    }
  }

  lemma KernelLendsSteadily(s: Sys, op: KernelRuns.Op)
    requires Inv(s.k) && PriInv(s) && KernelRuns.Allowed(s.k, op) && Quiet(op) && !op.OpChangePrio?
    ensures PriInv(s.(k := KernelRuns.Step(s.k, op)))
  {
    hide *;
    QuietShrinks(s.k, op);
    QuietSteady(s.k, op);
    SteadyKernel(s, KernelRuns.Step(s.k, op));
  }

  lemma ChangeLends(s: Sys, t: Tid, prio: Prio, place: Place, resort: bool)
    requires PendInv(s.k.tasks, s.k.pend) && PriInv(s) && t in s.k.tasks
    requires s.k.tasks[t].pendOn != OnMutex && forall q :: !Owns(s, t, q)
    ensures PriInv(s.(k := Reprio(s.k, t, prio, place, resort)))
  {
    hide PendInv, Lends, Reprio;
    forall q | q in s.objs
      ensures Lends(Reprio(s.k, t, prio, place, resort), q, s.objs[q])
    {
      ReprioLends(s, t, prio, place, resort, q + 1, q);
    }
    SameOwners(s, Reprio(s.k, t, prio, place, resort));
  }

  // ---------------------------------------------------------------- tasks

  lemma CreateTaskLends(s: Sys, t: Tid, prio: Prio, cap: nat)
    requires PriInv(s) && t !in s.k.tasks
    ensures PriInv(CreateTask(s, t, prio, cap))
  {
    var s' := CreateTask(s, t, prio, cap);
    forall o | o in s.objs
      ensures Lends(s'.k, o, s.objs[o])
    {
      assert Lends(s.k, o, s.objs[o]);
    }
    hide Lends;
    assert forall o, x :: Owns(s', x, o) ==> Owns(s, x, o);
  }

  lemma DeletedLends(k: K, t: Tid, o: Oid, b: Obj)
    requires Lends(k, o, b) && t in k.tasks && t != IDLE && (b.Mutex? && b.owner.Task? ==> b.owner.t != t)
    requires !k.tasks[t].linked ==> forall q :: q in k.pend ==> t !in k.pend[q]
    ensures Lends(Delete(k, t), o, b)
  {
    if b.Mutex? && b.owner.Task? {
      var l := k.pend[o];
      assert Delete(k, t).pend[o] == l || Delete(k, t).pend[o] == Without(l, t);
    }
  }

  lemma DeleteTaskLends(s: Sys, t: Tid)
    requires SysInv(s) && PriInv(s) && t in s.k.tasks && forall q :: !Owns(s, t, q)
    ensures PriInv(DeleteTask(s, t))
  {
    hide SysInv, Inv, PendInv, Lends, Delete;
    SysParts(s);
    if t != IDLE {
      if !s.k.tasks[t].linked { NotLinked(s.k.tasks, s.k.pend, t); }
      forall o | o in s.objs
        ensures Lends(Delete(s.k, t), o, s.objs[o])
      {
        assert Lends(s.k, o, s.objs[o]);
        assert !Owns(s, t, o);
        DeletedLends(s.k, t, o, s.objs[o]);
      }
      assert forall o, x :: Owns(DeleteTask(s, t), x, o) ==> Owns(s, x, o);
    }
  }

  lemma TaskPostLends(s: Sys, t: Tid, msg: Msg)
    requires SysInv(s) && PriInv(s) && t in s.k.tasks
    ensures PriInv(s.(k := Post(s.k, t, 0, msg)))
  {
    SysParts(s);
    hide *;
    PostShrinks(s.k, t, 0, msg);
    PostSteady(s.k, t, 0, msg);
    SteadyKernel(s, Post(s.k, t, 0, msg));
  }

  // The invariant does not look at the inboxes.
  lemma NewInbox(s: Sys, inbox: map<Tid, Inbox>)
    requires PriInv(s)
    ensures PriInv(s.(inbox := inbox))
  {
    hide Lends;
    assert forall o, x :: Owns(s.(inbox := inbox), x, o) ==> Owns(s, x, o);
  }

  // ---------------------------------------------------------------- runs

  // A pend on semaphores or queues either takes something or waits.
  lemma PendLends(s: Sys, op: Op)
    requires SysInv(s) && PriInv(s) && Allowed(s, op)
    requires op.OpSemPend? || op.OpQPend? || op.OpMultiPend? || op.OpTaskQPend?
    ensures PriInv(Step(s, op))
  {
    hide SysInv, PriInv, Pend, SemPost, SemSet, QPost, QFlush, FlagPend, FlagFinish, FlagPost, MutexPend, MutexPost,
         PendAbortObj, DelObj, MutexDel, TaskQPost, TaskSemPost, CreateTask, DeleteTask, CreateObj, KernelRuns.Step;
    var s' := Step(s, op);
    if s'.k == s.k {
      OtherObjects(s, s'.objs);
      NewInbox(s.(objs := s'.objs), s'.inbox);
    } else {
      match op
      case OpSemPend(o, _, timeout) => WaitLends(s, OnSem, [o], timeout);
      case OpQPend(o, _, timeout) => WaitLends(s, OnQ, [o], timeout);
      case OpMultiPend(l, _, timeout) => WaitLends(s, OnMulti, l, timeout);
      case OpTaskQPend(_, timeout) => WaitLends(s, OnTaskQ, [], timeout);
    }
  }

  lemma TaskMessageLends(s: Sys, op: Op)
    requires SysInv(s) && PriInv(s) && Allowed(s, op) && (op.OpTaskQPost? || op.OpTaskSemPost?)
    ensures PriInv(Step(s, op))
  {
    hide SysInv, PriInv, Post;
    if op.OpTaskQPost? && s.k.tasks[op.t].pendOn != OnTaskQ {
      NewInbox(s, Step(s, op).inbox);
    } else {
      TaskPostLends(s, op.t, if op.OpTaskQPost? then op.msg else NULL_MSG);
    }
  }

  lemma ObjectsOnly(s: Sys, op: Op)
    requires PriInv(s) && Allowed(s, op)
    requires op.OpSemSet? || op.OpQFlush? || op.OpFlagFinish?
    ensures PriInv(Step(s, op))
  {
    hide PriInv;
    OtherObjects(s, Step(s, op).objs);
  }

  lemma CreateObjLends(s: Sys, o: Oid, b: Obj)
    requires PriInv(s) && o !in s.objs && Newborn(b)
    ensures PriInv(CreateObj(s, o, b))
  {
    var k' := s.k.(pend := s.k.pend[o := []]);
    forall q | q in s.objs
      ensures Lends(k', q, s.objs[q])
    {
      assert Lends(s.k, q, s.objs[q]);
    }
    SameOwners(s, k');
    hide PriInv;
    OtherObjects(s.(k := k'), s.objs[o := b]);
  }

  lemma StepLends(s: Sys, op: Op)
    requires SysInv(s) && PriInv(s) && Allowed(s, op) && !Broken(s, op) && Disciplined(s, op)
    ensures PriInv(Step(s, op))
  {
    hide SysInv, PriInv, SemPend, SemPost, SemSet, QPend, QPost, QFlush, MultiPend, FlagPend, FlagFinish, FlagPost,
         MutexPend, MutexPost, PendAbortObj, DelObj, MutexDel, TaskQPend, TaskQPost, TaskSemPost, CreateTask,
         DeleteTask, CreateObj, KernelRuns.Step, KernelRuns.Broken, KernelRuns.Allowed, NoneMishandled,
         FlagPendMisses, FlagFinishMisses, Quiet, Inv;
    match op
    case OpCreateObj(o, b) => CreateObjLends(s, o, b);
    case OpSemPost(o, all) => SemPostLends(s, o, all);
    case OpQPost(o, msg, lifo, all, poolEmpty) => QPostLends(s, o, msg, lifo, all, poolEmpty);
    case OpFlagPend(o, flags, mode, consume, block, timeout) =>
      FlagPendLends(s, o, flags, mode, consume, block, timeout);
    case OpFlagPost(o, flags, set_) => FlagPostLends(s, o, flags, set_);
    case OpMutexPend(o, block, timeout) => MutexPendLends(s, o, block, timeout);
    case OpMutexPost(o) => MutexPostLends(s, o);
    case OpAbort(o, all) => AbortLends(s, o, all);
    case OpDel(o, always) => SysParts(s); DelLends(s, o, always);
    case OpMutexDel(o, always) => MutexDelLends(s, o, always);
    case OpTaskQPost(_, _, _, _) => TaskMessageLends(s, op);
    case OpTaskSemPost(_) => TaskMessageLends(s, op);
    case OpCreateTask(t, prio, cap) => CreateTaskLends(s, t, prio, cap);
    case OpDeleteTask(t) => DeleteTaskLends(s, t);
    case OpKernel(op) => KernelLends(s, op);
    case OpSemSet(_, _) => ObjectsOnly(s, op);
    case OpQFlush(_) => ObjectsOnly(s, op);
    case OpFlagFinish(_, _, _) => ObjectsOnly(s, op);
    case _ => PendLends(s, op);
  }

  ghost predicate AllDisciplined(s: Sys, ops: seq<Op>)
    requires Legal(s, ops)
    decreases |ops|
  {
    ops == [] || (Disciplined(s, ops[0]) && AllDisciplined(Step(s, ops[0]), ops[1..]))
  }

  // In every reachable state of a disciplined application every owner of a mutex is at least
  // as urgent as every task waiting for it, and as it was itself when it got the mutex.
  lemma {:induction false} PriorityInheritance(s: Sys, ops: seq<Op>)
    requires SysInv(s) && PriInv(s) && Legal(s, ops) && AllDisciplined(s, ops)
    ensures SysInv(Run(s, ops)) && PriInv(Run(s, ops))
    decreases |ops|
  {
    hide SysInv, PriInv, Allowed, Broken, Step, Disciplined;
    if ops != [] {
      StepKeeps(s, ops[0]);
      StepLends(s, ops[0]);
      PriorityInheritance(Step(s, ops[0]), ops[1..]);
    }
  }

  lemma InitialLends(spokes: nat)
    requires spokes > 0
    ensures SysInv(Initial(spokes)) && PriInv(Initial(spokes))
  {
    InitialKeeps(spokes);
    hide SysInv;
  }
}
