// What the services of the kernel objects mean to their callers: what woken tasks find, which
// calls undo each other, and what a call on several objects takes (os_sem.c, os_q.c,
// os_pend_multi.c, os_mutex.c).

module ObjectEffects {
  import opened Ticks
  import opened Lists
  import opened KernelState
  import opened KernelSteps
  import opened KernelEffects
  import opened ObjectSpec
  import opened ObjectInv

  // ---------------------------------------------------------------- what the waiters find

  // A post to one waiter or to all: each finds the message and leaves the wait; on several
  // objects it finds it in its table instead.
  lemma PostAllTells(k: K, o: Oid, all: bool, msg: Msg)
    requires Inv(k) && o in k.pend
    ensures var l := Chosen(k.pend[o], all); var k' := PostAll(k, l, o, msg);
      && OthersStay(k, k', Elements(l))
      && forall t :: t in l ==> Woken(k, k', t, PendOk) && (k.tasks[t].pendOn != OnMulti ==> k'.tasks[t].msg == msg)
  {
    hide Inv, PostAll, Shrinks, Mark, Chosen;
    var l := Chosen(k.pend[o], all);
    var k' := PostAll(k, l, o, msg);
    PostAllExact(k, o, all, msg);
    ChosenListed(k.pend[o], all);
    forall t | t in l
      ensures Woken(k, k', t, PendOk) && (k.tasks[t].pendOn != OnMulti ==> k'.tasks[t].msg == msg)
    {
      Listed(k, o, t);
      ReleasedWoken(k, k', Elements(l), PostedBy(o, msg), t, PendOk);
    }
  }

  // An abort of one wait or of all, and a deletion: each waiter finds the status and no message.
  lemma CancelAllTells(k: K, o: Oid, all: bool, status: PendStatus)
    requires Inv(k) && o in k.pend
    ensures var l := Chosen(k.pend[o], all); var k' := CancelAll(k, l, o, status);
      && OthersStay(k, k', Elements(l))
      && forall t :: t in l ==> Woken(k, k', t, status) && k'.tasks[t].msg == NULL_MSG
  {
    hide Inv, CancelAll, Shrinks, Mark, Chosen;
    var l := Chosen(k.pend[o], all);
    var k' := CancelAll(k, l, o, status);
    CancelAllExact(k, o, all, status);
    ChosenListed(k.pend[o], all);
    forall t | t in l
      ensures Woken(k, k', t, status) && k'.tasks[t].msg == NULL_MSG
    {
      Listed(k, o, t);
      ReleasedWoken(k, k', Elements(l), CancelledBy(o, status), t, status);
    }
  }

  lemma ChosenListed(l: seq<Tid>, all: bool)
    ensures forall t :: t in Chosen(l, all) ==> t in l
  {
  }

  lemma Listed(k: K, o: Oid, t: Tid)
    requires Inv(k) && o in k.pend && t in k.pend[o]
    ensures t in k.tasks
  {
    assert Waits(k.tasks, t, o);
  }

  // ---------------------------------------------------------------- taking back

  // A token posted to a semaphore nobody waits for is there for the next pend.
  lemma SemPendUndoesPost(s: Sys, o: Oid, block: bool, timeout: Tick)
    requires IsSem(s, o) && s.k.cur in s.k.tasks && s.k.pend[o] == [] && s.objs[o].ctr < CTR_MAX
    ensures var s' := SemPost(s, o, false); IsSem(s', o) && SemPend(s', o, block, timeout) == s
  {
    assert s.objs[o := Sem(s.objs[o].ctr + 1)][o := s.objs[o]] == s.objs;
  }

  // A message posted at the front of a queue nobody waits for is the next one handed out.
  lemma QPendUndoesLifoPost(s: Sys, o: Oid, msg: Msg, block: bool, timeout: Tick)
    requires IsQueue(s, o) && s.k.cur in s.k.tasks && s.k.pend[o] == [] && |s.objs[o].msgs| < s.objs[o].cap
    ensures var s' := QPost(s, o, msg, true, false, false);
      IsQueue(s', o) && s'.objs[o].msgs != [] && s'.objs[o].msgs[0] == msg && QPend(s', o, block, timeout) == s
  {
    var q := s.objs[o];
    assert ([msg] + q.msgs)[1..] == q.msgs;
    assert s.objs[o := q.(msgs := [msg] + q.msgs)][o := q] == s.objs;
  }

  // A mutex taken and given back: only the note of the owner's priority remains, and not even
  // that when it was already the owner.
  lemma MutexPostUndoesPend(s: Sys, o: Oid, block: bool, timeout: Tick)
    requires SysInv(s) && IsMutex(s, o) && s.k.cur in s.k.tasks
    requires var m := s.objs[o]; m.nest == 0 || (m.owner == Task(s.k.cur) && m.nest < NEST_MAX)
    ensures var s' := MutexPend(s, o, block, timeout); var m := s.objs[o];
      && IsMutex(s', o) && s'.k == s.k && s'.objs[o].owner == Task(s.k.cur) && s'.objs[o].nest == m.nest + 1
      && MutexPost(s', o) == s.(objs := s.objs[o := if m.nest == 0 then m.(orig := s.k.tasks[s.k.cur].prio) else m])
  {
    hide SysInv, Boost, Unboost, Pend, Post, Inv;
    MutexParts(s, o);
    assert s.objs[o := s.objs[o]] == s.objs;
  }

  lemma MutexParts(s: Sys, o: Oid)
    requires SysInv(s) && IsMutex(s, o)
    ensures var m := s.objs[o]; (m.nest == 0 <==> m.owner == Nobody) && (m.nest == 0 ==> s.k.pend[o] == [])
  {
    assert ObjOk(s.k, o, s.objs[o]);
  }

  // A task that has to wait lends the owner its priority if that is the more urgent one, and
  // changes the priority of nobody else.
  lemma WaitingLends(s: Sys, o: Oid, timeout: Tick)
    requires SysInv(s) && IsMutex(s, o) && Runs(s.k) && s.objs[o].owner.Task? && s.objs[o].owner.t != s.k.cur
    requires s.objs[o].owner.t in s.k.tasks
    ensures var s' := MutexPend(s, o, true, timeout); var w := s.objs[o].owner.t; var prio := s.k.tasks[s.k.cur].prio;
      && s'.objs == s.objs && s'.k.tasks.Keys == s.k.tasks.Keys && s'.k.tasks[s.k.cur].pendOn == OnMutex
      && s'.k.tasks[w].prio == (if prio < s.k.tasks[w].prio then prio else s.k.tasks[w].prio)
      && forall x :: x in s.k.tasks && x != w ==> s'.k.tasks[x].prio == s.k.tasks[x].prio
  {
    hide SysInv, Reprio, Pend;
    MutexParts(s, o);
    var w, prio := s.objs[o].owner.t, s.k.tasks[s.k.cur].prio;
    RepriosOne(s.k, w, prio);
    BlockedTask(Boost(s.k, s.objs[o].owner, prio), o, timeout);
  }

  lemma RepriosOne(k: K, w: Tid, prio: Prio)
    requires w in k.tasks
    ensures Reprio(k, w, prio, AtHead, true).tasks == k.tasks[w := k.tasks[w].(prio := prio)]
    ensures Reprio(k, w, prio, AtHead, true).cur == k.cur
  {
  }

  lemma BlockedTask(k: K, o: Oid, timeout: Tick)
    requires k.cur in k.tasks
    ensures var k' := Pend(k, OnMutex, [o], timeout);
      && k'.tasks.Keys == k.tasks.Keys && k'.tasks[k.cur].pendOn == OnMutex
      && k'.tasks[k.cur].prio == k.tasks[k.cur].prio
      && forall x :: x in k.tasks && x != k.cur ==> k'.tasks[x] == k.tasks[x]
  {
    hide Enlist, RdyRemove;
  }

  // ---------------------------------------------------------------- several at once

  // b without the token or message that it had.
  predicate OneLess(b: Obj, b': Obj) {
    if b.Sem? then b.ctr > 0 && b' == Sem(b.ctr - 1)
    else b.Queue? && b.msgs != [] && b' == b.(msgs := b.msgs[1..])
  }

  ghost predicate TookFromAll(s: Sys, s': Sys, l: seq<Oid>) {
    && s'.k == s.k && s'.inbox == s.inbox && s'.objs.Keys == s.objs.Keys
    && forall o :: o in s.objs ==>
      if o in l && HasOne(s.objs[o]) then OneLess(s.objs[o], s'.objs[o]) else s'.objs[o] == s.objs[o]
  }

  ghost predicate WaitsForAll(k: K, k': K, l: seq<Oid>) {
    && k'.pend.Keys == k.pend.Keys && k.cur in k'.tasks && k'.tasks[k.cur].pendOn == OnMulti
    && forall o :: o in k.pend ==> (k.cur in k'.pend[o] <==> o in l) && Without(k'.pend[o], k.cur) == k.pend[o]
  }

  // OSPendMulti takes one token or message from every object that has any, and waits for all of
  // them only when none has.
  lemma MultiPendTakes(s: Sys, l: seq<Oid>, timeout: Tick)
    requires SysInv(s) && MultiValid(s, l) && Runs(s.k)
    ensures var s' := MultiPend(s, l, true, timeout);
      if exists o :: o in l && HasOne(s.objs[o]) then TookFromAll(s, s', l)
      else s'.objs == s.objs && WaitsForAll(s.k, s'.k, l)
  {
    hide SysInv, Pend, WaitsForAll;
    if !exists o :: o in l && HasOne(s.objs[o]) {
      MultiPendBlocks(s, l, timeout);
    }
  }

  lemma MultiPendBlocks(s: Sys, l: seq<Oid>, timeout: Tick)
    requires SysInv(s) && MultiValid(s, l) && Runs(s.k) && !exists o :: o in l && HasOne(s.objs[o])
    ensures var s' := MultiPend(s, l, true, timeout); s'.objs == s.objs && WaitsForAll(s.k, s'.k, l)
  {
    hide Inv, Pend, WaitsForAll;
    OnNoList(s.k);
    BlockedPlaces(s.k, l, timeout);
  }

  lemma BlockedPlaces(k: K, l: seq<Oid>, timeout: Tick)
    requires k.cur in k.tasks && forall o :: o in k.pend ==> Distinct(k.pend[o]) && k.cur !in k.pend[o]
    ensures WaitsForAll(k, Pend(k, OnMulti, l, timeout), l)
  {
    hide Without, InsertAt, Distinct;
    var c := Blocked(k, OnMulti, l, timeout);
    assert forall i :: 0 <= i < |l| ==> c.table[i].obj == l[i];
    assert forall o :: o in l <==> o in Objects(c.table);
    forall o | o in k.pend
      ensures var r := Enlist(k.tasks, k.pend, k.cur, c.prio, Objects(c.table))[o];
        (k.cur in r <==> o in l) && Without(r, k.cur) == k.pend[o]
    {
      if o in l {
        WithoutInserted(k.pend[o], PrioPos(k.tasks, k.pend[o], c.prio), k.cur);
        InsertAtMembers(k.pend[o], PrioPos(k.tasks, k.pend[o], c.prio), k.cur);
      } else {
        NothingWithout(k.pend[o], k.cur);
      }
    }
  }
}
