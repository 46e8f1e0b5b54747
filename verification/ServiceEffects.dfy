// What every service of the kernel objects leaves behind (os_sem.c, os_q.c, os_flag.c, os_mutex.c,
// os_pend_multi.c, os_task.c): who is readied, with which status and message and in which place, who
// comes to wait and on what, and what becomes of the object.

module ServiceEffects {
  import opened Ticks
  import opened Lists
  import opened FlagBits
  import opened KernelState
  import opened KernelSteps
  import opened KernelReleases
  import opened TaskEffects
  import opened ReleaseOrder
  import opened ObjectSpec
  import opened ObjectInv
  import opened ObjectSteps
  import opened ObjectRuns
  import KernelRuns
  import Wheel = TickWheelSpec

  // ---------------------------------------------------------------- serving waiters

  // c' is what c becomes when its wait on o ends: by a post, with a message, or without one.
  ghost predicate Served(c: Tcb, c': Tcb, o: Oid, status: PendStatus, posted: bool, msg: Msg) {
    && c' == Left(c, status, c'.table, if posted && c.pendOn == OnMulti then c.msg else msg, c.flagsRdy)
    && (if c.pendOn == OnMulti then Marked(c.table, c'.table, o, posted, msg) else c'.table == c.table)
  }

  // The tasks of l, and no others, leave their waits on o; they are ready in that order unless they
  // are suspended, off the wheel and off every list.
  ghost predicate Serves(k: K, k': K, l: seq<Tid>, o: Oid, status: PendStatus, posted: bool, msg: Msg) {
    && k'.tasks.Keys == k.tasks.Keys
    && (forall t :: t in l ==> t in k.tasks && Served(k.tasks[t], k'.tasks[t], o, status, posted, msg))
    && (forall t :: t in k.tasks && t !in l ==> k'.tasks[t] == k.tasks[t])
    && AllJoin(k, k', l) && k'.wheel.ctr == k.wheel.ctr && k'.wheel.due == k.wheel.due - Elements(l)
    && SpokesLose(k.wheel, k'.wheel, Elements(l))
    && k'.pend.Keys == k.pend.Keys && (forall q :: q in k.pend ==> k'.pend[q] == Except(k.pend[q], Elements(l)))
    && k'.cur == k.cur && k'.prioCur == k.prioCur && k'.schedLock == k.schedLock
  }

  // The list after its first entries, or all of them, have gone.
  lemma {:induction false} ExceptAll(l: seq<Tid>, gone: set<Tid>)
    requires forall t :: t in l ==> t in gone
    ensures Except(l, gone) == []
  {
    if l != [] { ExceptAll(l[1..], gone); }
  }

  lemma {:induction false} ExceptAbsent(l: seq<Tid>, gone: set<Tid>)
    requires forall t :: t in l ==> t !in gone
    ensures Except(l, gone) == l
  {
    if l != [] { ExceptAbsent(l[1..], gone); }
  }

  lemma ExceptFirst(l: seq<Tid>)
    requires Distinct(l) && l != []
    ensures Except(l, Elements(l[..1])) == l[1..]
  {
    assert l[..1] == [l[0]];
    ExceptAbsent(l[1..], Elements(l[..1]));
  }

  lemma WaiterTable(k: K, o: Oid, t: Tid)
    requires Inv(k) && o in k.pend && t in k.pend[o]
    ensures t in k.tasks && TableDistinct(k.tasks[t].table) && Unanswered(k.tasks[t].table) && k.tasks[t].st.pend
  {
    assert Waits(k.tasks, t, o) && TcbOk(k.tasks[t]);
  }

  // Everybody who waits on o, or only the first.
  lemma PostAllDoes(k: K, o: Oid, all: bool, msg: Msg)
    requires Inv(k) && o in k.pend && k.pend[o] != []
    ensures var l := if all then k.pend[o] else [k.pend[o][0]]; var k' := PostAll(k, Chosen(k.pend[o], all), o, msg);
      Serves(k, k', l, o, PendOk, true, msg) && k'.pend[o] == if all then [] else k.pend[o][1..]
  {
    hide Inv, PostAll, Posted, Served, AllJoin, SpokesLose, Except, ReleaseAll, Frees, EndsWait, TcbOk, Shrinks;
    var l, f := Chosen(k.pend[o], all), PostedBy(o, msg);
    assert l == if all then k.pend[o] else [k.pend[o][0]];
    var k' := PostAll(k, l, o, msg);
    PostAllExact(k, o, all, msg);
    ListWaits(k, o, all);
    PostAllReleases(k, l, o, msg);
    forall t | t in l ensures Frees(k.tasks[t], f) && EndsWait(k.tasks[t], f) { PostFrees(k.tasks[t], o, msg); }
    Freeing(k, l, o, f, all);
    forall t | t in l
      ensures t in k.tasks && Served(k.tasks[t], k'.tasks[t], o, PendOk, true, msg)
    {
      WaiterTable(k, o, t);
      PostServes(k.tasks[t], o, msg);
    }
  }

  lemma PostFrees(c: Tcb, o: Oid, msg: Msg)
    requires TcbOk(c) && c.st.pend
    ensures Frees(c, PostedBy(o, msg)) && EndsWait(c, PostedBy(o, msg))
  {
    hide Mark;
  }

  lemma CancelFrees(c: Tcb, o: Oid, status: PendStatus)
    requires TcbOk(c) && c.st.pend
    ensures Frees(c, CancelledBy(o, status)) && EndsWait(c, CancelledBy(o, status))
  {
    hide Mark;
  }

  lemma PostServes(c: Tcb, o: Oid, msg: Msg)
    requires TableDistinct(c.table) && Unanswered(c.table)
    ensures Served(c, Posted(c, o, msg), o, PendOk, true, msg)
  {
    hide Mark;
    KernelRuns.MarkOne(c.table, o, true, msg);
  }

  lemma CancelServes(c: Tcb, o: Oid, status: PendStatus)
    requires TableDistinct(c.table) && Unanswered(c.table)
    ensures Served(c, Cancelled(c, o, status), o, status, false, NULL_MSG)
  {
    hide Mark;
    KernelRuns.MarkOne(c.table, o, false, NULL_MSG);
  }

  lemma CancelAllDoes(k: K, o: Oid, all: bool, status: PendStatus)
    requires Inv(k) && o in k.pend && k.pend[o] != []
    ensures var l := if all then k.pend[o] else [k.pend[o][0]];
      var k' := CancelAll(k, Chosen(k.pend[o], all), o, status);
      Serves(k, k', l, o, status, false, NULL_MSG) && k'.pend[o] == if all then [] else k.pend[o][1..]
  {
    hide Inv, CancelAll, Cancelled, Served, AllJoin, SpokesLose, Except, ReleaseAll, Frees, EndsWait, TcbOk, Shrinks;
    var l, f := Chosen(k.pend[o], all), CancelledBy(o, status);
    assert l == if all then k.pend[o] else [k.pend[o][0]];
    var k' := CancelAll(k, l, o, status);
    CancelAllExact(k, o, all, status);
    ListWaits(k, o, all);
    CancelAllReleases(k, l, o, status);
    forall t | t in l ensures Frees(k.tasks[t], f) && EndsWait(k.tasks[t], f) { CancelFrees(k.tasks[t], o, status); }
    Freeing(k, l, o, f, all);
    forall t | t in l
      ensures t in k.tasks && Served(k.tasks[t], k'.tasks[t], o, status, false, NULL_MSG)
    {
      WaiterTable(k, o, t);
      CancelServes(k.tasks[t], o, status);
    }
  }

  // Where the tasks freed stand, and what is left of the list of o.
  lemma Freeing(k: K, l: seq<Tid>, o: Oid, f: Tcb -> Tcb, all: bool)
    requires Inv(k) && o in k.pend && k.pend[o] != [] && l == if all then k.pend[o] else [k.pend[o][0]]
    requires forall t :: t in l ==> t in k.tasks && Frees(k.tasks[t], f) && EndsWait(k.tasks[t], f)
    ensures var k' := ReleaseAll(k, l, f);
      && AllJoin(k, k', l) && k'.wheel.ctr == k.wheel.ctr && k'.wheel.due == k.wheel.due - Elements(l)
      && SpokesLose(k.wheel, k'.wheel, Elements(l))
    ensures Except(k.pend[o], Elements(l)) == if all then [] else k.pend[o][1..]
  {
    hide Inv, AllJoin, SpokesLose, Except, ReleaseAll, Frees, EndsWait;
    PendSorted(k);
    ReleasesJoin(k, l, f);
    ReleasesLeaveSpokes(k, l, f);
    ReleaseAllKeeps(k, l, f);
    if all { ExceptAll(k.pend[o], Elements(l)); } else { ExceptFirst(k.pend[o]); assert l == k.pend[o][..1]; }
  }

  // ---------------------------------------------------------------- semaphores

  // OSSemPend: a token is taken; without one the caller waits, if it asks to and may.
  lemma SemPendDoes(s: Sys, o: Oid, block: bool, timeout: Tick)
    requires SysInv(s) && IsSem(s, o) && Caller(s, block)
    ensures var s' := SemPend(s, o, block, timeout); var ctr := s.objs[o].ctr;
      if ctr > 0 then s' == s.(objs := s.objs[o := Sem(ctr - 1)])
      else if block && s.k.schedLock == 0 then
        s' == s.(k := s'.k) && Blocks(s.k, s'.k, s.k.tasks[s.k.cur], OnSem, [o], timeout)
      else s' == s
  {
    hide SysInv, Inv, Pend, Blocks;
    SysParts(s);
    if s.objs[o].ctr == 0 && block && s.k.schedLock == 0 { PendDoes(s.k, OnSem, [o], timeout); }
  }

  // OSSemPost: the first waiter, or every one, is readied; without waiters the count goes up, and no
  // further than 2^32 - 1.
  lemma SemPostDoes(s: Sys, o: Oid, all: bool)
    requires SysInv(s) && IsSem(s, o)
    ensures var s' := SemPost(s, o, all); var l := s.k.pend[o]; var ctr := s.objs[o].ctr;
      if l != [] then
        && s' == s.(k := s'.k)
        && Serves(s.k, s'.k, if all then l else [l[0]], o, PendOk, true, NULL_MSG)
        && s'.k.pend[o] == (if all then [] else l[1..])
      else s' == s.(objs := s.objs[o := Sem(if ctr == 0xFFFF_FFFF then ctr else ctr + 1)])
  {
    hide SysInv, Inv, PostAll, Serves;
    SysParts(s);
    if s.k.pend[o] != [] {
      PostAllDoes(s.k, o, all, NULL_MSG);
    } else {
      assert s.objs[o := s.objs[o]] == s.objs;
    }
  }

  // OSSemSet: not while tasks wait for a token.
  lemma SemSetDoes(s: Sys, o: Oid, cnt: Tick)
    requires SysInv(s) && IsSem(s, o)
    ensures SemSet(s, o, cnt) == if s.k.pend[o] != [] then s else s.(objs := s.objs[o := Sem(cnt)])
  {
    hide SysInv, Inv;
    SysObject(s, o);
  }

  // ---------------------------------------------------------------- message queues

  lemma QPendDoes(s: Sys, o: Oid, block: bool, timeout: Tick)
    requires SysInv(s) && IsQueue(s, o) && Caller(s, block)
    ensures var s' := QPend(s, o, block, timeout); var q := s.objs[o];
      if q.msgs != [] then s' == s.(objs := s.objs[o := Queue(q.msgs[1..], q.cap)])
      else if block && s.k.schedLock == 0 then
        s' == s.(k := s'.k) && Blocks(s.k, s'.k, s.k.tasks[s.k.cur], OnQ, [o], timeout)
      else s' == s
  {
    hide SysInv, Inv, Pend, Blocks;
    SysParts(s);
    if s.objs[o].msgs == [] && block && s.k.schedLock == 0 { PendDoes(s.k, OnQ, [o], timeout); }
  }

  // OSQPost: the first waiter, or every one, gets the message; without waiters it goes to the end,
  // or with LIFO to the front, of a queue that has room, if there is an OS_MSG for it.
  lemma QPostDoes(s: Sys, o: Oid, msg: Msg, lifo: bool, all: bool, poolEmpty: bool)
    requires SysInv(s) && IsQueue(s, o)
    ensures var s' := QPost(s, o, msg, lifo, all, poolEmpty); var l := s.k.pend[o]; var q := s.objs[o];
      if l != [] then
        && s' == s.(k := s'.k)
        && Serves(s.k, s'.k, if all then l else [l[0]], o, PendOk, true, msg)
        && s'.k.pend[o] == (if all then [] else l[1..])
      else if |q.msgs| < q.cap && !poolEmpty then
        s' == s.(objs := s.objs[o := Queue(if lifo then [msg] + q.msgs else q.msgs + [msg], q.cap)])
      else s' == s
  {
    hide SysInv, Inv, PostAll, Serves;
    SysParts(s);
    if s.k.pend[o] != [] { PostAllDoes(s.k, o, all, msg); }
  }

  lemma QFlushDoes(s: Sys, o: Oid)
    requires IsQueue(s, o)
    ensures QFlush(s, o) == s.(objs := s.objs[o := Queue([], s.objs[o].cap)])
  {
  }

  // ---------------------------------------------------------------- aborting and deleting

  // OSSemPendAbort, OSQPendAbort and the others: the first waiter, or every one, is told so.
  lemma AbortDoes(s: Sys, o: Oid, all: bool)
    requires SysInv(s) && o in s.k.pend
    ensures var s' := PendAbortObj(s, o, all); var l := s.k.pend[o];
      if l == [] then s' == s
      else
        && s' == s.(k := s'.k)
        && Serves(s.k, s'.k, if all then l else [l[0]], o, PendAbort, false, NULL_MSG)
        && s'.k.pend[o] == (if all then [] else l[1..])
  {
    hide SysInv, Inv, Serves;
    SysParts(s);
    if s.k.pend[o] != [] { CancelAllDoes(s.k, o, all, PendAbort); }
  }

  // Deleting an object: refused with OS_OPT_DEL_NO_PEND while tasks wait; otherwise the object is
  // gone, and every waiter is told so.
  ghost predicate Deletes(s: Sys, s': Sys, o: Oid, always: bool) {
    && o in s.k.pend
    && var l := s.k.pend[o];
      if l == [] then s' == s.(objs := s.objs - {o})
      else if always then
        && s' == s.(k := s'.k, objs := s.objs - {o})
        && Serves(s.k, s'.k, l, o, PendDel, false, NULL_MSG) && s'.k.pend[o] == []
      else s' == s
  }

  lemma DelDoes(s: Sys, o: Oid, always: bool)
    requires SysInv(s) && o in s.k.pend
    ensures Deletes(s, DelObj(s, o, always), o, always)
  {
    hide SysInv, Inv, Serves;
    SysParts(s);
    if s.k.pend[o] != [] { CancelAllDoes(s.k, o, true, PendDel); }
  }

  // ---------------------------------------------------------------- several objects at once

  // OSPendMulti: one token or message from every object that has any; when none has, the caller
  // waits on all of them, if it asks to and may.
  lemma MultiPendDoes(s: Sys, l: seq<Oid>, block: bool, timeout: Tick)
    requires SysInv(s) && MultiValid(s, l) && Distinct(l) && Caller(s, block)
    ensures var s' := MultiPend(s, l, block, timeout);
      if exists o :: o in l && Offers(s.objs[o]) then
        && s' == s.(objs := s'.objs) && s'.objs.Keys == s.objs.Keys
        && forall o :: o in s.objs ==>
             var b := s.objs[o];
             s'.objs[o] ==
               if o !in l || !Offers(b) then b
               else if b.Sem? then Sem(b.ctr - 1) else Queue(b.msgs[1..], b.cap)
      else if block && s.k.schedLock == 0 then
        s' == s.(k := s'.k) && Blocks(s.k, s'.k, s.k.tasks[s.k.cur], OnMulti, l, timeout)
      else s' == s
  {
    hide SysInv, Inv, Pend, Blocks;
    SysParts(s);
    assert forall o :: o in l && o in s.objs ==> (Offers(s.objs[o]) <==> HasOne(s.objs[o]));
    if !(exists o :: o in l && Offers(s.objs[o])) && block && s.k.schedLock == 0 { PendDoes(s.k, OnMulti, l, timeout); }
  }

  // A token or a message to take.
  predicate Offers(b: Obj) {
    match b
    case Sem(ctr) => ctr > 0
    case Queue(msgs, _) => msgs != []
    case _ => false
  }

  // ---------------------------------------------------------------- mutexes

  // A waiter more urgent than the owner lends it its priority: a ready owner goes to the head of
  // the list of that priority.
  ghost predicate Lends(k: K, k1: K, w: Tid, prio: Prio)
    requires w in k.tasks
  {
    if k.tasks[w].prio > prio then Reprioritises(k, k1, w, prio, true, true) && k1.prioCur == k.prioCur else k1 == k
  }

  // An owner gets back the priority it had, and a ready one goes to the tail of that list.
  ghost predicate Restores(k: K, k1: K, w: Tid, orig: Prio)
    requires w in k.tasks
  {
    if k.tasks[w].prio != orig then Reprioritises(k, k1, w, orig, false, true) else k1 == k
  }

  // OSMutexPend: a free mutex is taken and the caller's priority noted; the owner nests; anybody
  // else lends the owner its priority and waits, if it asks to and may.
  lemma MutexPendDoes(s: Sys, o: Oid, block: bool, timeout: Tick)
    requires SysInv(s) && IsMutex(s, o) && Caller(s, block)
    ensures var s' := MutexPend(s, o, block, timeout); var m := s.objs[o]; var prio := s.k.tasks[s.k.cur].prio;
      if m.nest == 0 then s' == s.(objs := s.objs[o := Mutex(Task(s.k.cur), prio, 1)])
      else if m.owner == Task(s.k.cur) then
        s' == s.(objs := s.objs[o := Mutex(m.owner, m.orig, (m.nest + 1) % 256)])
      else if block && s.k.schedLock == 0 && m.owner.Task? && m.owner.t in s.k.tasks then
        exists k1: K :: s.k.cur in k1.tasks
          && Lends(s.k, k1, m.owner.t, prio)
          && Blocks(k1, s'.k, s.k.tasks[s.k.cur], OnMutex, [o], timeout) && s' == s.(k := s'.k)
      else s' == s
  {
    hide SysInv, Inv, Pend, Blocks, Lends, Boost;
    SysObject(s, o);
    var m := s.objs[o];
    if m.nest > 0 && m.owner != Task(s.k.cur) && block && s.k.schedLock == 0 && !Gone(s.k, m.owner) {
      MutexBlocksDoes(s, o, timeout);
    }
  }

  lemma MutexBlocksDoes(s: Sys, o: Oid, timeout: Tick)
    requires SysInv(s) && IsMutex(s, o) && Runs(s.k)
    requires s.objs[o].owner.Task? && s.objs[o].owner.t in s.k.tasks && s.objs[o].owner.t != s.k.cur
    ensures var prio := s.k.tasks[s.k.cur].prio; var w := s.objs[o].owner; var k1 := Boost(s.k, w, prio);
      && Lends(s.k, k1, w.t, prio) && s.k.cur in k1.tasks
      && Blocks(k1, Pend(k1, OnMutex, [o], timeout), s.k.tasks[s.k.cur], OnMutex, [o], timeout)
  {
    hide SysInv, Inv, Pend, Blocks, Reprioritises, Reprio, TcbOk, PendInv, PendArgs;
    var prio, w := s.k.tasks[s.k.cur].prio, s.objs[o].owner;
    var k1 := Boost(s.k, w, prio);
    SysParts(s);
    ReprioDoes(s.k, w.t, prio, AtHead, true);
    BoostedRuns(s.k, w, prio, o);
    BoostKeeps(s, w, prio);
    SysParts(s.(k := k1));
    PendDoes(k1, OnMutex, [o], timeout);
    OthersStay(s.k, k1, w.t, prio);
  }

  lemma OthersStay(k: K, k1: K, w: Tid, prio: Prio)
    requires w in k.tasks && Lends(k, k1, w, prio)
    ensures k1.tasks.Keys == k.tasks.Keys && k1.cur == k.cur
    ensures forall t :: t in k.tasks && t != w ==> k1.tasks[t] == k.tasks[t]
  {
  }

  // The owner has its own priority back in k1, and OSPrioCur follows; then t, the first waiter, is
  // readied as the new owner, and the priority it has is noted.
  ghost predicate HandsOver(s: Sys, k1: K, s': Sys, o: Oid, t: Tid, orig: Prio) {
    && s.k.cur in s.k.tasks && t in k1.tasks && t in s'.k.tasks
    && Restores(s.k, k1, s.k.cur, orig)
    && k1.prioCur == (if s.k.tasks[s.k.cur].prio != orig then orig else s.k.prioCur)
    && Freely(k1, s'.k, t, s'.k.tasks[t]) && Served(k1.tasks[t], s'.k.tasks[t], o, PendOk, true, NULL_MSG)
    && s' == s.(k := s'.k, objs := s.objs[o := Mutex(Task(t), k1.tasks[t].prio, 1)])
  }

  // OSMutexPost by the owner: the last of its nested calls frees the mutex, or hands it to the first
  // waiter.
  ghost predicate GivesBack(s: Sys, s': Sys, o: Oid)
    requires IsMutex(s, o)
  {
    var m, l := s.objs[o], s.k.pend[o];
    if m.owner != Task(s.k.cur) then s' == s
    else if m.nest != 1 then s' == s.(objs := s.objs[o := Mutex(m.owner, m.orig, (m.nest + 255) % 256)])
    else if l == [] then s' == s.(objs := s.objs[o := Mutex(Nobody, m.orig, 0)])
    else exists k1: K :: HandsOver(s, k1, s', o, l[0], m.orig)
  }

  lemma MutexPostDoes(s: Sys, o: Oid)
    requires SysInv(s) && IsMutex(s, o) && s.k.cur in s.k.tasks
    ensures GivesBack(s, MutexPost(s, o), o)
  {
    hide SysInv, Inv, Unboost, Post, HandsOver;
    SysObject(s, o);
    var m, l := s.objs[o], s.k.pend[o];
    WaitersExist(s, o);
    if m.owner == Task(s.k.cur) && m.nest == 1 && l != [] {
      HandOverDoes(s, o);
      assert HandsOver(s, Unboost(s.k, m.orig), MutexPost(s, o), o, l[0], m.orig);
    }
  }

  lemma HandOverDoes(s: Sys, o: Oid)
    requires SysInv(s) && IsMutex(s, o) && s.k.cur in s.k.tasks && s.k.pend[o] != []
    ensures var orig := s.objs[o].orig; var t := s.k.pend[o][0]; var k1 := Unboost(s.k, orig);
      && t in k1.tasks
      && HandsOver(s, k1, s.(k := Post(k1, t, o, NULL_MSG), objs := s.objs[o := Mutex(Task(t), k1.tasks[t].prio, 1)]),
                   o, t, orig)
  {
    hide SysInv, Inv, Post, Freely, Served, Reprio, Reprioritises;
    var orig, t := s.objs[o].orig, s.k.pend[o][0];
    var k1 := Unboost(s.k, orig);
    SysParts(s);
    ReprioDoes(s.k, s.k.cur, orig, AtTail, true);
    ReprioSameBut(s.k, Reprio(s.k, s.k.cur, orig, AtTail, true), s.k.cur, orig);
    WaiterTable(s.k, o, t);
    SameUnboosted(s.k, orig, t);
    UnboostKeeps(s, orig);
    SysParts(s.(k := k1));
    PostTells(k1, t, o);
  }

  // OSPrioCur is not part of what a change of priority says.
  lemma ReprioSameBut(k: K, k1: K, t: Tid, prio: Prio)
    requires t in k.tasks && Reprioritises(k, k1, t, prio, false, true)
    ensures forall p: Prio :: Reprioritises(k, k1.(prioCur := p), t, prio, false, true)
  {
  }

  lemma SameUnboosted(k: K, prio: Prio, t: Tid)
    requires k.cur in k.tasks && t in k.tasks
    ensures var k1 := Unboost(k, prio);
      t in k1.tasks && k1.tasks[t].table == k.tasks[t].table && k1.tasks[t].st == k.tasks[t].st
  {
  }

  lemma PostTells(k: K, t: Tid, o: Oid)
    requires Inv(k) && t in k.tasks && k.tasks[t].st.pend
    requires TableDistinct(k.tasks[t].table) && Unanswered(k.tasks[t].table)
    ensures var k' := Post(k, t, o, NULL_MSG);
      t in k'.tasks && Freely(k, k', t, k'.tasks[t]) && Served(k.tasks[t], k'.tasks[t], o, PendOk, true, NULL_MSG)
  {
    hide Inv, Freely, Posted, Served, Release;
    PostDoes(k, t, o, NULL_MSG);
    var c, k' := k.tasks[t], Post(k, t, o, NULL_MSG);
    FreelyIs(k, k', t, Left(c, PendOk, k'.tasks[t].table, if c.pendOn == OnMulti then c.msg else NULL_MSG, c.flagsRdy));
    ReleaseSets(k, t, Posted(c, o, NULL_MSG));
    PostServes(c, o, NULL_MSG);
  }

  lemma FreelyIs(k: K, k': K, t: Tid, c: Tcb)
    requires Freely(k, k', t, c)
    ensures t in k'.tasks && k'.tasks[t] == c
  {
  }

  // OSMutexDel with OS_OPT_DEL_ALWAYS gives the owner its priority back first; it fails when the
  // owner was deleted.
  lemma MutexDelDoes(s: Sys, o: Oid, always: bool)
    requires SysInv(s) && IsMutex(s, o)
    ensures var s' := MutexDel(s, o, always); var m := s.objs[o];
      if !always || m.owner == Nobody then Deletes(s, s', o, always)
      else if m.owner.t !in s.k.tasks then s' == s
      else
        exists k1: K :: Restores(s.k, k1, m.owner.t, m.orig) && k1.prioCur == s.k.prioCur
          && Deletes(s.(k := k1), s', o, always)
  {
    hide SysInv, Inv, Reprio, Deletes, DelObj, Restores;
    var m := s.objs[o];
    SysParts(s);
    if !always || m.owner == Nobody {
      DelDoes(s, o, always);
    } else if m.owner.t in s.k.tasks {
      MutexGone(s, o, m.owner.t);
    }
  }

  lemma MutexGone(s: Sys, o: Oid, w: Tid)
    requires SysInv(s) && IsMutex(s, o) && s.objs[o].owner == Task(w) && w in s.k.tasks
    ensures var orig := s.objs[o].orig;
      var k1 := if s.k.tasks[w].prio != orig then Reprio(s.k, w, orig, AtTail, true) else s.k;
      Restores(s.k, k1, w, orig) && k1.prioCur == s.k.prioCur && Deletes(s.(k := k1), MutexDel(s, o, true), o, true)
  {
    hide SysInv, Inv, Reprio, Deletes, DelObj, Reprioritises;
    var orig := s.objs[o].orig;
    SysParts(s);
    ReprioDoes(s.k, w, orig, AtTail, true);
    ReprioKeys(s.k, w, orig, AtTail);
    Reprioritised(s, w, orig, AtTail);
    var k1 := if s.k.tasks[w].prio != orig then Reprio(s.k, w, orig, AtTail, true) else s.k;
    DelDoes(s.(k := k1), o, true);
  }

  // ---------------------------------------------------------------- messages and signals to a task

  lemma TaskQPendDoes(s: Sys, block: bool, timeout: Tick)
    requires SysInv(s) && s.k.cur in s.k.tasks && s.k.cur in s.inbox && Caller(s, block)
    ensures var s' := TaskQPend(s, block, timeout); var q := s.inbox[s.k.cur];
      if q.msgs != [] then s' == s.(inbox := s.inbox[s.k.cur := Inbox(q.msgs[1..], q.cap)])
      else if block && s.k.schedLock == 0 then
        s' == s.(k := s'.k) && Blocks(s.k, s'.k, s.k.tasks[s.k.cur], OnTaskQ, [], timeout)
      else s' == s
  {
    hide SysInv, Inv, Pend, Blocks;
    SysParts(s);
    if s.inbox[s.k.cur].msgs == [] && block && s.k.schedLock == 0 { PendDoes(s.k, OnTaskQ, [], timeout); }
  }

  // A task that waits for a message gets it; any other finds it in its queue later, unless the queue
  // is full or no OS_MSG is left.
  lemma TaskQPostDoes(s: Sys, t: Tid, msg: Msg, lifo: bool, poolEmpty: bool)
    requires SysInv(s) && t in s.k.tasks && t in s.inbox
    ensures var s' := TaskQPost(s, t, msg, lifo, poolEmpty); var q := s.inbox[t]; var c := s.k.tasks[t];
      if c.pendOn == OnTaskQ then s' == s.(k := s'.k) && Freely(s.k, s'.k, t, Left(c, PendOk, c.table, msg, c.flagsRdy))
      else if |q.msgs| < q.cap && !poolEmpty then
        s' == s.(inbox := s.inbox[t := Inbox(if lifo then [msg] + q.msgs else q.msgs + [msg], q.cap)])
      else s' == s
  {
    hide SysInv, Inv, Post, Freely, PendInv;
    SysParts(s);
    PostDoes(s.k, t, 0, msg);
  }

  // The queue of a new task is empty and holds as many messages as asked for; with none nothing can
  // be sent to it before it waits.
  lemma NewTaskTakesMail(s: Sys, t: Tid, prio: Prio, cap: nat, msg: Msg, lifo: bool)
    requires t !in s.k.tasks
    ensures var s1 := CreateTask(s, t, prio, cap);
      && t in s1.k.tasks && s1 == Sys(s1.k, s.objs, s.inbox[t := Inbox([], cap)])
      && TaskQPost(s1, t, msg, lifo, false) == if cap == 0 then s1 else s1.(inbox := s1.inbox[t := Inbox([msg], cap)])
  {
    assert [msg] + [] == [msg] == [] + [msg];
  }

  // A task that waits for a signal is readied; any other never learns of it.
  lemma TaskSemPostDoes(s: Sys, t: Tid)
    requires SysInv(s) && t in s.k.tasks
    ensures var s' := TaskSemPost(s, t); var c := s.k.tasks[t];
      if c.pendOn == OnTaskSem then
        s' == s.(k := s'.k) && Freely(s.k, s'.k, t, Left(c, PendOk, c.table, NULL_MSG, c.flagsRdy))
      else s' == s
  {
    hide SysInv, Inv, Post, Freely, PendInv;
    SysParts(s);
    PostDoes(s.k, t, 0, NULL_MSG);
  }

  // ---------------------------------------------------------------- event flags

  // OSFlagPend: when the flags are as asked the caller notes which of its flags they are and takes
  // them if it consumes; otherwise it waits with its request in its control block, if it asks to
  // and may.
  lemma FlagPendDoes(s: Sys, o: Oid, flags: bv32, mode: FlagMode, consume: bool, block: bool, timeout: Tick)
    requires SysInv(s) && IsFlags(s, o) && Caller(s, block)
    ensures var s' := FlagPend(s, o, flags, mode, consume, block, timeout);
      var bits := s.objs[o].bits; var c := s.k.tasks[s.k.cur];
      if Asked(bits, flags, mode) then
        exists rdy, bits' :: Found(bits, flags, mode, rdy) && Taken(bits, bits', rdy, mode)
          && s' == s.(k := s.k.(tasks := s.k.tasks[s.k.cur := c.(flagsRdy := rdy)]),
                      objs := if consume then s.objs[o := Flags(bits')] else s.objs)
      else if block && s.k.schedLock == 0 then
        && s' == s.(k := s'.k)
        && Blocks(s.k, s'.k, c.(flagsPend := flags, flagsMode := mode, flagsRdy := 0), OnFlag, [o], timeout)
      else s' == s
  {
    hide SysInv, Inv, Pend, Blocks, Found, Taken, Asked, Satisfied, RdyBits, Consumed, WithFlags;
    var bits := s.objs[o].bits;
    SatisfiedAsked(bits, flags, mode);
    RdyFound(bits, flags, mode);
    ConsumeTakes(bits, RdyBits(bits, flags, mode), mode);
    if !Satisfied(bits, flags, mode) && block && s.k.schedLock == 0 { FlagBlocksDoes(s, o, flags, mode, timeout); }
  }

  lemma FlagBlocksDoes(s: Sys, o: Oid, flags: bv32, mode: FlagMode, timeout: Tick)
    requires SysInv(s) && IsFlags(s, o) && Runs(s.k)
    ensures var c := s.k.tasks[s.k.cur].(flagsPend := flags, flagsMode := mode, flagsRdy := 0);
      Blocks(s.k, Pend(WithFlags(s.k, flags, mode), OnFlag, [o], timeout), c, OnFlag, [o], timeout)
  {
    hide SysInv, Inv, Pend, Blocks, TcbOk, PendInv, Shrinks;
    SysParts(s);
    var c := s.k.tasks[s.k.cur].(flagsPend := flags, flagsMode := mode, flagsRdy := 0);
    Annotated(s.k, s.k.cur, c);
    var k1 := WithFlags(s.k, flags, mode);
    PendDoes(k1, OnFlag, [o], timeout);
    BlocksSame(s.k, k1, Pend(k1, OnFlag, [o], timeout), c, OnFlag, [o], timeout);
  }

  // What the caller's own control block held does not matter to where it comes to stand.
  lemma BlocksSame(k: K, k1: K, k': K, c: Tcb, on: PendOn, objs: seq<Oid>, timeout: Tick)
    requires k.cur in k.tasks && c.prio == k.tasks[k.cur].prio && k1 == k.(tasks := k.tasks[k.cur := c])
    requires Blocks(k1, k', c, on, objs, timeout)
    ensures Blocks(k, k', c, on, objs, timeout)
  {
    forall o | o in k.pend && o in objs
      ensures Queued(k.tasks, k.pend[o], k'.pend[o], k.cur, c.prio)
    {
      QueuedSame(k.tasks, k1.tasks, k.pend[o], k'.pend[o], k.cur, c.prio);
    }
  }

  lemma QueuedSame(tasks: map<Tid, Tcb>, tasks1: map<Tid, Tcb>, l: seq<Tid>, l': seq<Tid>, t: Tid, prio: Prio)
    requires Queued(tasks1, l, l', t, prio) && tasks1.Keys == tasks.Keys
    requires forall x :: x in tasks ==> tasks1[x].prio == tasks[x].prio
    ensures Queued(tasks, l, l', t, prio)
  {
  }

  // The end of OSFlagPend, when the task runs again: it takes what it found.
  lemma FlagFinishDoes(s: Sys, o: Oid, mode: FlagMode, consume: bool)
    requires IsFlags(s, o) && s.k.cur in s.k.tasks
    ensures var s' := FlagFinish(s, o, mode, consume); var rdy := s.k.tasks[s.k.cur].flagsRdy;
      if consume then
        exists bits' :: Taken(s.objs[o].bits, bits', rdy, mode) && s' == s.(objs := s.objs[o := Flags(bits')])
      else s' == s
  {
    hide Taken, Consumed;
    ConsumeTakes(s.objs[o].bits, s.k.tasks[s.k.cur].flagsRdy, mode);
  }

  // Those of l that ask for what the flags now are, in the order of l.
  ghost function Met(tasks: map<Tid, Tcb>, l: seq<Tid>, bits: bv32): (r: seq<Tid>)
    ensures forall t :: t in r <==> t in l && t in tasks && Asked(bits, tasks[t].flagsPend, tasks[t].flagsMode)
  {
    if l == [] then []
    else
      (if l[0] in tasks && Asked(bits, tasks[l[0]].flagsPend, tasks[l[0]].flagsMode) then [l[0]] else [])
      + Met(tasks, l[1..], bits)
  }

  // The tasks of l, and no others, leave their waits for flags, each with those of its flags that
  // were as asked. A suspended one stays on the wheel.
  ghost predicate Raises(k: K, k': K, l: seq<Tid>, bits: bv32) {
    && k'.tasks.Keys == k.tasks.Keys && (forall t :: t in l ==> t in k.tasks && Raised(k.tasks[t], k'.tasks[t], bits))
    && (forall t :: t in k.tasks && t !in l ==> k'.tasks[t] == k.tasks[t])
    && AllJoin(k, k', l) && k'.wheel.ctr == k.wheel.ctr
    && k'.wheel.due == k.wheel.due - (set t | t in l && !k.tasks[t].st.susp)
    && k'.pend.Keys == k.pend.Keys && (forall q :: q in k.pend ==> k'.pend[q] == Except(k.pend[q], Elements(l)))
    && k'.cur == k.cur && k'.prioCur == k.prioCur && k'.schedLock == k.schedLock
  }

  ghost predicate Raised(c: Tcb, c': Tcb, bits: bv32) {
    c' == Left(c, PendOk, c.table, c.msg, c'.flagsRdy) && Found(bits, c.flagsPend, c.flagsMode, c'.flagsRdy)
  }

  // OSFlagPost: exactly the flags named are set, or cleared; a waiter leaves the list exactly when
  // the flags are now as it asks.
  lemma FlagPostDoes(s: Sys, o: Oid, flags: bv32, set_: bool)
    requires SysInv(s) && IsFlags(s, o)
    ensures var s' := FlagPost(s, o, flags, set_); var l := s.k.pend[o];
      exists bits :: Changed(s.objs[o].bits, bits, flags, set_)
        && s' == s.(k := s'.k, objs := s.objs[o := Flags(bits)])
        && Raises(s.k, s'.k, Met(s.k.tasks, l, bits), bits)
        && forall t :: t in l ==>
             t in s.k.tasks && (t in s'.k.pend[o] <==> !Asked(bits, s.k.tasks[t].flagsPend, s.k.tasks[t].flagsMode))
  {
    hide SysInv, Inv, FlagWake, Asked, Changed, PostedBits, AllJoin, Raised;
    var l, bits := s.k.pend[o], PostedBits(s.objs[o].bits, flags, set_);
    SysParts(s);
    PostChanges(s.objs[o].bits, flags, set_);
    Waiting(s.k, o);
    FlagWakeDoes(s.k, l, bits);
  }

  ghost predicate OnLine(k: K, l: seq<Tid>) {
    Distinct(l) && forall t :: t in l ==> t in k.tasks && k.tasks[t].st.pend && k.tasks[t].linked
  }

  lemma Waiting(k: K, o: Oid)
    requires Inv(k) && o in k.pend
    ensures OnLine(k, k.pend[o])
  {
    PendSorted(k);
    forall t | t in k.pend[o]
      ensures t in k.tasks && k.tasks[t].st.pend && k.tasks[t].linked
    {
      assert Waits(k.tasks, t, o) && TcbOk(k.tasks[t]);
    }
  }

  lemma {:induction false} FlagWakeDoes(k: K, l: seq<Tid>, bits: bv32)
    requires OnLine(k, l)
    ensures Raises(k, FlagWake(k, l, bits), Met(k.tasks, l, bits), bits)
    decreases |l|
  {
    hide FlagRdy, Asked, Satisfied, RdyBits, Raised, AllJoin, Found;
    if l == [] {
      RaisesNobody(k, bits);
    } else {
      var t, c := l[0], k.tasks[l[0]];
      var k1 := if FlagHit(k, t, bits) then FlagRdy(k, t, RdyBits(bits, c.flagsPend, c.flagsMode)) else k;
      RaisesFirst(k, k1, t, bits);
      SatisfiedAsked(bits, c.flagsPend, c.flagsMode);
      var one := if FlagHit(k, t, bits) then [t] else [];
      assert Raises(k, k1, one, bits);
      assert OnLine(k1, l[1..]);
      FlagWakeDoes(k1, l[1..], bits);
      SameMet(k.tasks, k1.tasks, l[1..], bits);
      assert t !in l[1..];
      RaisesChain(k, k1, FlagWake(k1, l[1..], bits), one, Met(k.tasks, l[1..], bits), bits);
    }
  }

  lemma {:induction false} SameMet(tasks: map<Tid, Tcb>, tasks': map<Tid, Tcb>, l: seq<Tid>, bits: bv32)
    requires forall t :: t in l ==> t in tasks && t in tasks' && tasks'[t] == tasks[t]
    ensures Met(tasks', l, bits) == Met(tasks, l, bits)
  {
    hide Asked;
    if l != [] { SameMet(tasks, tasks', l[1..], bits); }
  }

  lemma RaisesNobody(k: K, bits: bv32)
    ensures Raises(k, k, [], bits)
  {
    forall o | o in k.pend
      ensures Except(k.pend[o], {}) == k.pend[o]
    {
      ExceptNone(k.pend[o]);
    }
    assert Elements<Tid>([]) == {};
  }

  lemma RaisesFirst(k: K, k1: K, t: Tid, bits: bv32)
    requires t in k.tasks && k.tasks[t].st.pend && k.tasks[t].linked
    requires var c := k.tasks[t];
      k1 == if FlagHit(k, t, bits) then FlagRdy(k, t, RdyBits(bits, c.flagsPend, c.flagsMode)) else k
    ensures Raises(k, k1, if FlagHit(k, t, bits) then [t] else [], bits)
  {
    hide Found, RdyBits, Satisfied, Without, Except, Wheel.Remove;
    if FlagHit(k, t, bits) {
      var c := k.tasks[t];
      RdyFound(bits, c.flagsPend, c.flagsMode);
      ReleaseWheel(k, t, Freed(c.(flagsRdy := RdyBits(bits, c.flagsPend, c.flagsMode)), PendOk));
      forall o | o in k.pend
        ensures Without(k.pend[o], t) == Except(k.pend[o], {t})
      {
        ExceptOne(k.pend[o], t);
      }
      assert Elements([t]) == {t};
      OneJoins(k, k1, t);
    } else {
      RaisesNobody(k, bits);
    }
  }

  lemma OneJoins(k: K, k1: K, t: Tid)
    requires t in k.tasks
    requires k1.rdy == if k.tasks[t].st.susp then k.rdy else RdyInsert(k.rdy, k.prioCur, k.tasks[t].prio, t)
    ensures AllJoin(k, k1, [t])
  {
    assert [t][1..] == [];
  }

  lemma RaisesChain(k: K, k1: K, k2: K, one: seq<Tid>, l: seq<Tid>, bits: bv32)
    requires Raises(k, k1, one, bits) && Raises(k1, k2, l, bits) && |one| <= 1
    requires forall t :: t in one ==> t !in l
    ensures Raises(k, k2, one + l, bits)
  {
    hide Raised, AllJoin, Except;
    assert Elements(one + l) == Elements(l) + Elements(one);
    forall o | o in k.pend
      ensures k2.pend[o] == Except(k.pend[o], Elements(one + l))
    {
      ExceptTwice(k.pend[o], Elements(one), Elements(l));
    }
    AllJoinChain(k, k1, k2, one, l);
  }

  lemma AllJoinChain(k: K, k1: K, k2: K, one: seq<Tid>, l: seq<Tid>)
    requires AllJoin(k, k1, one) && AllJoin(k1, k2, l) && |one| <= 1 && k1.prioCur == k.prioCur
    requires k1.tasks.Keys == k.tasks.Keys && forall t :: t in l && t in k.tasks ==> k1.tasks[t] == k.tasks[t]
    ensures AllJoin(k, k2, one + l)
  {
    hide Backwards;
    forall p | 0 <= p < PRIO_MAX
      ensures var more := OfPrio(k.tasks, one + l, p);
        k2.rdy[p] == if p == k.prioCur then k.rdy[p] + more else Backwards(more) + k.rdy[p]
    {
      SameOfPrio(k.tasks, k1.tasks, l, p);
      OfPrioTwo(k.tasks, one, l, p);
      OneBackwards(OfPrio(k.tasks, one, p));
      OneThenRest(k.rdy[p], OfPrio(k.tasks, one, p), OfPrio(k.tasks, l, p));
    }
  }

  lemma {:induction false} OneBackwards(one: seq<Tid>)
    requires |one| <= 1
    ensures Backwards(one) == one
  {
  }

  lemma {:induction false} OfPrioTwo(tasks: map<Tid, Tcb>, one: seq<Tid>, l: seq<Tid>, p: Prio)
    requires |one| <= 1
    ensures |OfPrio(tasks, one, p)| <= 1 && OfPrio(tasks, one + l, p) == OfPrio(tasks, one, p) + OfPrio(tasks, l, p)
  {
    if one == [] { assert one + l == l; } else { assert (one + l)[1..] == l && one[1..] == []; }
  }
}
