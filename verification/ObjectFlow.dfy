// What goes into a semaphore or a queue comes out of it, over whole runs (os_sem.c, os_q.c).

module ObjectFlow {
  import opened Lists
  import opened KernelState
  import opened KernelSteps
  import opened ObjectSpec
  import opened ObjectInv
  import opened ObjectRuns

  // ---------------------------------------------------------------- who takes part

  // The operation gives nothing to o and takes nothing from it.
  predicate Elsewhere(op: Op, o: Oid) {
    match op
    case OpSemPend(q, _, _) => q != o
    case OpSemPost(q, _) => q != o
    case OpSemSet(q, _) => q != o
    case OpQPend(q, _, _) => q != o
    case OpQPost(q, _, _, _, _) => q != o
    case OpQFlush(q) => q != o
    case OpMultiPend(l, _, _) => o !in l
    case OpFlagPend(q, _, _, _, _, _) => q != o
    case OpFlagFinish(q, _, _) => q != o
    case OpFlagPost(q, _, _) => q != o
    case OpMutexPend(q, _, _) => q != o
    case OpMutexPost(q) => q != o
    case OpDel(q, _) => q != o
    case OpMutexDel(q, _) => q != o
    case OpCreateObj(q, _) => q != o
    case _ => true
  }

  lemma ElsewhereSame(s: Sys, op: Op, o: Oid)
    requires Allowed(s, op) && Elsewhere(op, o) && o in s.objs
    ensures o in Step(s, op).objs && Step(s, op).objs[o] == s.objs[o]
  {
    hide Pend, PostAll, CancelAll, FlagWake, Post, Reprio, Boost, Unboost;
  }

  // ---------------------------------------------------------------- semaphores

  // Pends and single posts; no broadcast, no OSSemSet, no deletion.
  predicate Counted(op: Op, o: Oid) {
    Elsewhere(op, o) || op.OpSemPend? || op.OpMultiPend? || (op.OpSemPost? && !op.all)
  }

  predicate SomeReady(s: Sys, l: seq<Oid>)
    requires MultiValid(s, l)
  {
    exists o :: o in l && HasOne(s.objs[o])
  }

  // Tokens the step makes out of an accepted post, and tokens it hands to a task: to the
  // caller, or straight to the first waiter.
  ghost function Accepted(s: Sys, op: Op, o: Oid): nat
  {
    if !IsSem(s, o) then 0
    else if op.OpSemPost? && op.o == o && (s.k.pend[o] != [] || s.objs[o].ctr != CTR_MAX) then 1 else 0
  }

  ghost function Acquired(s: Sys, op: Op, o: Oid): nat
  {
    if !IsSem(s, o) then 0
    else match op
    case OpSemPend(q, _, _) => if q == o && s.objs[o].ctr > 0 then 1 else 0
    case OpMultiPend(l, _, _) => if o in l && s.objs[o].ctr > 0 then 1 else 0
    case OpSemPost(q, _) => if q == o && s.k.pend[o] != [] then 1 else 0
    case _ => 0
  }

  lemma TokenStep(s: Sys, op: Op, o: Oid)
    requires Allowed(s, op) && IsSem(s, o) && Counted(op, o)
    ensures var s' := Step(s, op);
      && o in s'.objs && s'.objs[o].Sem?
      && s'.objs[o].ctr + Acquired(s, op, o) == s.objs[o].ctr + Accepted(s, op, o)
  {
    hide Pend, PostAll;
    if Elsewhere(op, o) {
      ElsewhereSame(s, op, o);
      hide Step;
    } else if op.OpMultiPend? {
      assert HasOne(s.objs[o]) <==> s.objs[o].ctr > 0;
      assert s.objs[o].ctr > 0 ==> SomeReady(s, op.l);
      assert SomeReady(s, op.l) ==> Step(s, op).objs == TakeAll(s.objs, op.l);
    }
  }

  ghost predicate AllCounted(ops: seq<Op>, o: Oid) {
    forall i :: 0 <= i < |ops| ==> Counted(ops[i], o)
  }

  ghost function TotalAccepted(s: Sys, ops: seq<Op>, o: Oid): nat
    requires Legal(s, ops)
    decreases |ops|
  {
    if ops == [] then 0 else Accepted(s, ops[0], o) + TotalAccepted(Step(s, ops[0]), ops[1..], o)
  }

  ghost function TotalAcquired(s: Sys, ops: seq<Op>, o: Oid): nat
    requires Legal(s, ops)
    decreases |ops|
  {
    if ops == [] then 0 else Acquired(s, ops[0], o) + TotalAcquired(Step(s, ops[0]), ops[1..], o)
  }

  // The count, plus the tokens handed to tasks, is the initial count plus the posts accepted.
  lemma {:induction false} TokensConserved(s: Sys, ops: seq<Op>, o: Oid)
    requires SysInv(s) && Legal(s, ops) && IsSem(s, o) && AllCounted(ops, o)
    ensures var s' := Run(s, ops);
      && o in s'.objs && s'.objs[o].Sem?
      && s'.objs[o].ctr + TotalAcquired(s, ops, o) == s.objs[o].ctr + TotalAccepted(s, ops, o)
    decreases |ops|
  {
    hide SysInv, Allowed, Broken, Step;
    if ops != [] {
      StepKeeps(s, ops[0]);
      TokenStep(s, ops[0], o);
      assert forall i :: 0 <= i < |ops[1..]| ==> ops[1..][i] == ops[i + 1];
      StillListed(Step(s, ops[0]), o);
      TokensConserved(Step(s, ops[0]), ops[1..], o);
    }
  }

  lemma StillListed(s: Sys, o: Oid)
    requires SysInv(s) && o in s.objs
    ensures o in s.k.pend
  {
    assert ObjOk(s.k, o, s.objs[o]);
  }

  // The first of the most urgent waiters of o, who was waiting on it and had neither timed
  // out nor been aborted, has been posted to; nobody else moved.
  ghost predicate FirstServed(k: K, k': K, o: Oid, msg: Msg)
    requires o in k.pend && k.pend[o] != []
  {
    var t := k.pend[o][0];
    && Waits(k.tasks, t, o) && k.tasks[t].st.pend && k.tasks[t].status == PendOk
    && (forall x :: x in k.pend[o] ==> x in k.tasks && k.tasks[t].prio <= k.tasks[x].prio)
    && o in k'.pend && k'.pend[o] == k.pend[o][1..]
    && k'.tasks == k.tasks[t := Posted(k.tasks[t], o, msg)]
  }

  lemma MostUrgent(k: K, o: Oid)
    requires Inv(k) && o in k.pend && k.pend[o] != []
    ensures var t := k.pend[o][0];
      && Waits(k.tasks, t, o) && k.tasks[t].st.pend && k.tasks[t].status == PendOk
      && (forall x :: x in k.pend[o] ==> x in k.tasks && k.tasks[t].prio <= k.tasks[x].prio)
      && Without(k.pend[o], t) == k.pend[o][1..]
  {
    var l := k.pend[o];
    assert l[0] in l;
    assert Waits(k.tasks, l[0], o) && TcbOk(k.tasks[l[0]]);
    forall x | x in l
      ensures x in k.tasks && k.tasks[l[0]].prio <= k.tasks[x].prio
    {
      assert Waits(k.tasks, x, o);
    }
    WithoutIsRemoveAt(l, 0);
    assert RemoveAt(l, 0) == l[1..];
  }

  lemma PostServesFirst(k: K, o: Oid, msg: Msg)
    requires Inv(k) && o in k.pend && k.pend[o] != []
    ensures FirstServed(k, PostAll(k, Chosen(k.pend[o], false), o, msg), o, msg)
  {
    var t := k.pend[o][0];
    MostUrgent(k, o);
    hide Inv;
    assert Chosen(k.pend[o], false) == [t];
    assert PostAll(k, [t], o, msg) == Post(k, t, o, msg);
  }

  // A single post with waiters gives the token to the first of the most urgent ones.
  lemma TokenGoesToWaiter(s: Sys, o: Oid)
    requires SysInv(s) && IsSem(s, o) && s.k.pend[o] != []
    ensures var s' := SemPost(s, o, false);
      FirstServed(s.k, s'.k, o, NULL_MSG) && s'.objs == s.objs && s.objs[o].ctr == 0
  {
    assert ObjOk(s.k, o, s.objs[o]);
    hide Inv, FirstServed;
    PostServesFirst(s.k, o, NULL_MSG);
  }

  // ---------------------------------------------------------------- queues

  // Pends and single posts at the end of the queue; no flush and no deletion.
  predicate InOrder(op: Op, o: Oid) {
    Elsewhere(op, o) || op.OpQPend? || op.OpMultiPend? || (op.OpQPost? && !op.all && !op.lifo)
  }

  // The message the step makes the queue take, and the one it hands out: from the queue, or
  // past it to the first waiter.
  ghost function Sent(s: Sys, op: Op, o: Oid): seq<Msg>
  {
    if !IsQueue(s, o) then []
    else if op.OpQPost? && op.o == o && !Refused(s, o, op.poolEmpty) then [op.msg] else []
  }

  ghost function Handed(s: Sys, op: Op, o: Oid): seq<Msg>
  {
    if !IsQueue(s, o) then []
    else match op
    case OpQPend(q, _, _) => if q == o then s.objs[o].msgs[..if s.objs[o].msgs == [] then 0 else 1] else []
    case OpMultiPend(l, _, _) => if o in l && s.objs[o].msgs != [] then s.objs[o].msgs[..1] else []
    case OpQPost(q, msg, _, _, _) => if q == o && s.k.pend[o] != [] then [msg] else []
    case _ => []
  }

  lemma QueueStep(s: Sys, op: Op, o: Oid)
    requires SysInv(s) && Allowed(s, op) && IsQueue(s, o) && InOrder(op, o)
    ensures var s' := Step(s, op);
      && o in s'.objs && s'.objs[o].Queue?
      && Handed(s, op, o) + s'.objs[o].msgs == s.objs[o].msgs + Sent(s, op, o)
  {
    hide SysInv, Step, ObjOk, Allowed;
    if Elsewhere(op, o) {
      ElsewhereSame(s, op, o);
    } else {
      SysObject(s, o);
      QueueOwnStep(s, op, o);
    }
  }

  lemma QueueOwnStep(s: Sys, op: Op, o: Oid)
    requires IsQueue(s, o) && ObjOk(s.k, o, s.objs[o])
    requires Allowed(s, op) && InOrder(op, o) && !Elsewhere(op, o)
    ensures var s' := Step(s, op);
      && o in s'.objs && s'.objs[o].Queue?
      && Handed(s, op, o) + s'.objs[o].msgs == s.objs[o].msgs + Sent(s, op, o)
  {
    hide Pend, PostAll;
    var msgs := s.objs[o].msgs;
    assert msgs != [] ==> msgs[..1] + msgs[1..] == msgs;
    if op.OpMultiPend? {
      assert HasOne(s.objs[o]) <==> msgs != [];
      assert msgs != [] ==> SomeReady(s, op.l);
      assert SomeReady(s, op.l) ==> Step(s, op).objs == TakeAll(s.objs, op.l);
    }
  }

  ghost predicate AllInOrder(ops: seq<Op>, o: Oid) {
    forall i :: 0 <= i < |ops| ==> InOrder(ops[i], o)
  }

  ghost function AllSent(s: Sys, ops: seq<Op>, o: Oid): seq<Msg>
    requires Legal(s, ops)
    decreases |ops|
  {
    if ops == [] then [] else Sent(s, ops[0], o) + AllSent(Step(s, ops[0]), ops[1..], o)
  }

  ghost function AllHanded(s: Sys, ops: seq<Op>, o: Oid): seq<Msg>
    requires Legal(s, ops)
    decreases |ops|
  {
    if ops == [] then [] else Handed(s, ops[0], o) + AllHanded(Step(s, ops[0]), ops[1..], o)
  }

  // What has been handed out, followed by what is still queued, is what was queued at the
  // start followed by what was accepted, in that order: first in, first out, whichever way
  // each message took.
  lemma {:induction false} FirstInFirstOut(s: Sys, ops: seq<Op>, o: Oid)
    requires SysInv(s) && Legal(s, ops) && IsQueue(s, o) && AllInOrder(ops, o)
    ensures var s' := Run(s, ops);
      && o in s'.objs && s'.objs[o].Queue?
      && AllHanded(s, ops, o) + s'.objs[o].msgs == s.objs[o].msgs + AllSent(s, ops, o)
    decreases |ops|
  {
    hide SysInv, Allowed, Broken, Step, Handed, Sent, InOrder;
    if ops != [] {
      var s1 := Step(s, ops[0]);
      StepKeeps(s, ops[0]);
      QueueStep(s, ops[0], o);
      assert forall i :: 0 <= i < |ops[1..]| ==> ops[1..][i] == ops[i + 1];
      StillListed(s1, o);
      FirstInFirstOut(s1, ops[1..], o);
      Regroup(Handed(s, ops[0], o), AllHanded(s1, ops[1..], o), Run(s1, ops[1..]).objs[o].msgs, s1.objs[o].msgs,
              AllSent(s1, ops[1..], o), s.objs[o].msgs, Sent(s, ops[0], o));
    }
  }

  // One step and the rest of a run, put together.
  lemma Regroup(handed: seq<Msg>, later: seq<Msg>, end: seq<Msg>, mid: seq<Msg>, sentLater: seq<Msg>, start: seq<Msg>,
      sent: seq<Msg>)
    requires later + end == mid + sentLater && handed + mid == start + sent
    ensures (handed + later) + end == start + (sent + sentLater)
  {
    assert (handed + later) + end == handed + (later + end);
    assert handed + (mid + sentLater) == (handed + mid) + sentLater;
  }

  // A message that bypasses the queue arrives with the first of the most urgent waiters, and
  // the queue was empty.
  lemma MessageGoesToWaiter(s: Sys, o: Oid, msg: Msg, poolEmpty: bool)
    requires SysInv(s) && IsQueue(s, o) && s.k.pend[o] != []
    ensures var s' := QPost(s, o, msg, false, false, poolEmpty);
      FirstServed(s.k, s'.k, o, msg) && s'.objs == s.objs && s.objs[o].msgs == []
  {
    assert ObjOk(s.k, o, s.objs[o]);
    hide Inv, FirstServed;
    PostServesFirst(s.k, o, msg);
  }
}
